/** The `Person` base class that `Parent` and `Child` extend: a name and an age
    with unvalidated getters and setters. */
module People {

  import opened Primitives

  class Person {
    var name: string
    var age: int32

    constructor (name: string, age: int32)
      ensures this.name == name && this.age == age
    {
      this.name := name;
      this.age := age;
    }

    method GetName() returns (n: string)
      ensures n == name
    {
      n := name;
    }

    method GetAge() returns (a: int32)
      ensures a == age
    {
      a := age;
    }

    /** Replaces the name unconditionally; the age is untouched. */
    method SetName(name: string)
      modifies this`name
      ensures this.name == name
      ensures age == old(age)
    {
      this.name := name;
    }

    /** Replaces the age unconditionally (negative ages are accepted); the name is untouched. */
    method SetAge(age: int32)
      modifies this`age
      ensures this.age == age
      ensures name == old(name)
    {
      this.age := age;
    }
  }
}
