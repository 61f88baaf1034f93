/** The family data model: `Parent` and `Child`, each built on a `Person` for its
    name and age. Links between entities are plain references, any of which may
    be null, and none of them is kept symmetric: spouse, sibling and
    parent-child links are exactly what the callers set. */
module Family {

  import opened Primitives
  import opened People
  import Arrays

  class Parent {
    /** The name and age this parent inherits from `Person`. */
    const person: Person
    var spouse: Parent?
    var children: array<Child?>

    /** A parent without a spouse and without children. */
    constructor (name: string, age: int32)
      ensures fresh(person) && person.name == name && person.age == age
      ensures spouse == null
      ensures fresh(children) && children.Length == 0
    {
      person := new Person(name, age);
      spouse := null;
      children := new Child?[0];
    }

    /** A parent married to `spouse`, without children; `spouse` is not told. */
    constructor WithSpouse(name: string, age: int32, spouse: Parent?)
      ensures fresh(person) && person.name == name && person.age == age
      ensures this.spouse == spouse
      ensures fresh(children) && children.Length == 0
    {
      person := new Person(name, age);
      this.spouse := spouse;
      children := new Child?[0];
    }

    method GetSpouse() returns (s: Parent?)
      ensures s == spouse
    {
      s := spouse;
    }

    /** Replaces the spouse. The link is one-way: the new spouse's own spouse
        field, like everything else, is left as it was. */
    method SetSpouse(spouse: Parent?)
      modifies this`spouse
      ensures this.spouse == spouse
      ensures children == old(children)
      ensures spouse != null && spouse != this ==> spouse.spouse == old(spouse.spouse)
    {
      this.spouse := spouse;
    }

    /** The stored array itself, not a copy: writes through it are seen here. */
    method GetChildren() returns (a: array<Child?>)
      ensures a == children
    {
      a := children;
    }

    /** Stores `a` itself (no copy), replacing the whole list of children. */
    method SetChildren(a: array<Child?>)
      modifies this`children
      ensures children == a && a[..] == old(a[..])
      ensures spouse == old(spouse)
    {
      children := a;
    }

    /** Appends `c` (duplicates and null included) by replacing the children
        array with a new, one-longer copy; the previous array keeps its contents. */
    method AddChild(c: Child?)
      modifies this`children
      ensures children.Length == old(children.Length) + 1
      ensures children[..old(children.Length)] == old(children[..])
      ensures children[old(children.Length)] == c
      ensures children[..] == old(children[..]) + [c]
      ensures fresh(children) && old(children)[..] == old(children[..])
      ensures spouse == old(spouse)
    {
      children := Arrays.AppendCopy(children, c);
    }
  }

  class Child {
    /** The name and age this child inherits from `Person`. */
    const person: Person
    /** Fixed at construction: there is no way to change a child's parents. */
    const parent1: Parent?
    const parent2: Parent?
    var siblings: array<Child?>

    /** A child of `par1` and `par2` without siblings; neither parent is told. */
    constructor (name: string, age: int32, par1: Parent?, par2: Parent?)
      ensures fresh(person) && person.name == name && person.age == age
      ensures parent1 == par1 && parent2 == par2
      ensures fresh(siblings) && siblings.Length == 0
    {
      person := new Person(name, age);
      parent1 := par1;
      parent2 := par2;
      siblings := new Child?[0];
    }

    method GetParent1() returns (p: Parent?)
      ensures p == parent1
    {
      p := parent1;
    }

    method GetParent2() returns (p: Parent?)
      ensures p == parent2
    {
      p := parent2;
    }

    /** Stores `a` itself (no copy), replacing the whole list of siblings. */
    method SetSiblings(a: array<Child?>)
      modifies this`siblings
      ensures siblings == a && a[..] == old(a[..])
    {
      siblings := a;
    }

    /** The stored array itself, not a copy. */
    method GetSiblings() returns (a: array<Child?>)
      ensures a == siblings
    {
      a := siblings;
    }

    /** Appends `c` (duplicates, null and this child itself included) by
        replacing the siblings array with a new, one-longer copy. The link is
        one-way: `c`'s own siblings are left as they were. */
    method AddSibling(c: Child?)
      modifies this`siblings
      ensures siblings.Length == old(siblings.Length) + 1
      ensures siblings[..old(siblings.Length)] == old(siblings[..])
      ensures siblings[old(siblings.Length)] == c
      ensures siblings[..] == old(siblings[..]) + [c]
      ensures fresh(siblings) && old(siblings)[..] == old(siblings[..])
      ensures c != null && c != this ==> c.siblings == old(c.siblings) && c.siblings[..] == old(c.siblings[..])
    {
      siblings := Arrays.AppendCopy(siblings, c);
    }
  }
}
