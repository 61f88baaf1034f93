/** Clients of the family model that replay the behaviour the test suite
    expects, and show the reference semantics of the arrays: everything below is
    proved from the contracts of `Person`, `Parent` and `Child` alone. */
module FamilyScenarios {

  import opened Primitives
  import opened People
  import opened Family

  /** A person reports the name and age it was built with, then the updated ones. */
  method PersonAccessors() returns (name0: string, age0: int, name1: string, age1: int)
    ensures name0 == "John" && age0 == 30
    ensures name1 == "Jane" && age1 == 25
  {
    var p := new Person("John", 30);
    name0 := p.GetName();
    var a := p.GetAge();
    age0 := a as int;
    p.SetName("Jane");
    p.SetAge(25);
    name1 := p.GetName();
    a := p.GetAge();
    age1 := a as int;
  }

  /** Marriage takes one call on each side; afterwards each is the other's spouse. */
  method MarryBothWays() returns (father: Parent, mother: Parent)
    ensures father != mother
    ensures father.spouse == mother && mother.spouse == father
  {
    father := new Parent("John", 35);
    mother := new Parent("Mary", 32);
    father.SetSpouse(mother);
    mother.SetSpouse(father);
  }

  /** Setting one spouse does not marry the other one back, neither through the
      setter nor through the three-argument constructor. */
  method SpouseIsOneWay() returns (father: Parent, mother: Parent, widow: Parent)
    ensures father.spouse == mother && mother.spouse == null
    ensures widow.spouse == father && father.spouse != widow
  {
    father := new Parent("John", 35);
    mother := new Parent("Mary", 32);
    father.SetSpouse(mother);
    widow := new Parent.WithSpouse("Ann", 60, father);
  }

  /** A new child added to both of its parents appears first in both lists and
      keeps the parents it was born with (`fatherList` is the father's list at
      that point). Each parent got its own new array, so a later write through
      the father's array leaves the mother's list alone. */
  method FirstChild() returns (father: Parent, mother: Parent, child: Child, other: Child, fatherList: seq<Child?>)
    ensures fatherList == [child] && mother.children[..] == [child]
    ensures father.children != mother.children
    ensures father.children[..] == [other]
    ensures child.parent1 == father && child.parent2 == mother
  {
    father := new Parent("John", 35);
    mother := new Parent("Mary", 32);
    father.SetSpouse(mother);
    mother.SetSpouse(father);
    child := new Child("Baby", 1, father, mother);
    father.AddChild(child);
    mother.AddChild(child);
    other := new Child("Other", 2, father, mother);
    var a := father.GetChildren();
    fatherList := a[..];
    a[0] := other;
  }

  /** Siblings are linked by one call on each side, and children are listed in
      the order they were added. */
  method TwoChildren() returns (father: Parent, mother: Parent, child1: Child, child2: Child)
    ensures child1.parent1 == father && child1.parent2 == mother
    ensures child1.siblings[..] == [child2] && child2.siblings[..] == [child1]
    ensures father.children[..] == [child1, child2]
    ensures mother.children[..] == [child1, child2]
  {
    father := new Parent("John", 35);
    mother := new Parent("Mary", 32);
    child1 := new Child("Child1", 5, father, mother);
    child2 := new Child("Child2", 3, father, mother);
    child1.AddSibling(child2);
    child2.AddSibling(child1);
    father.AddChild(child1);
    father.AddChild(child2);
    mother.AddChild(child1);
    mother.AddChild(child2);
  }

  /** Adding a sibling on one side leaves the other side without one. */
  method SiblingIsOneWay() returns (child1: Child, child2: Child)
    ensures child1.siblings[..] == [child2]
    ensures child2.siblings.Length == 0
  {
    var father := new Parent("John", 35);
    var mother := new Parent("Mary", 32);
    child1 := new Child("Child1", 5, father, mother);
    child2 := new Child("Child2", 3, father, mother);
    child1.AddSibling(child2);
  }

  /** An array obtained from `GetChildren` before `AddChild` still holds the
      old children afterwards: the parent moved on to a new array. */
  method EarlierArrayKeepsOldChildren() returns (before: array<Child?>, after: array<Child?>, child1: Child, child2: Child)
    ensures before != after
    ensures before[..] == [child1] && after[..] == [child1, child2]
  {
    var father := new Parent("John", 35);
    var mother := new Parent("Mary", 32);
    child1 := new Child("Child1", 5, father, mother);
    child2 := new Child("Child2", 3, father, mother);
    father.AddChild(child1);
    before := father.GetChildren();
    father.AddChild(child2);
    after := father.GetChildren();
  }

  /** Any number of `AddChild` calls on a new parent leave exactly the added
      children, in the order they were added, duplicates and nulls included. */
  method ChildrenInOrderAdded(name: string, age: int32, kids: seq<Child?>) returns (p: Parent)
    ensures p.spouse == null
    ensures p.children[..] == kids
  {
    p := new Parent(name, age);
    var i := 0;
    while i < |kids|
      invariant 0 <= i <= |kids|
      invariant p.spouse == null
      invariant p.children[..] == kids[..i]
    {
      p.AddChild(kids[i]);
      i := i + 1;
    }
  }

  /** `SetChildren` and `SetSiblings` store the caller's array by reference, so
      a later write through the caller's array shows in the entity. */
  method ArraysAreShared() returns (father: Parent, child: Child, other: Child)
    ensures father.children[..] == [other]
    ensures child.siblings[..] == [other]
  {
    father := new Parent("John", 35);
    child := new Child("Baby", 1, father, null);
    other := new Child("Other", 2, father, null);
    var shared := new Child?[1];
    father.SetChildren(shared);
    child.SetSiblings(shared);
    shared[0] := other;
  }
}
