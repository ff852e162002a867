/** `Example` (src/microgenesis/example.py): a name and a greeting. */
module ExampleClass {
  /** How `set_name` ends: normally, or with the `ValueError` it raises. */
  datatype Status = Done | ValueError(message: string)

  const DefaultName: string := "MicroGenesis"

  class Example {
    var name: string

    /** `Example(name="MicroGenesis")`. */
    constructor (name: string := DefaultName)
      ensures this.name == name
    {
      this.name := name;
    }

    /** `greet()`: the name framed by "Hello from " and "!"; the name can
        be read back out of the message. */
    function Greet(): (message: string)
      reads this
      ensures |message| == |name| + 12
      ensures message[..11] == "Hello from " && message[|message| - 1] == '!'
      ensures message[11..|message| - 1] == name
    {
      "Hello from " + name + "!"
    }

    /** `set_name(name)`: an empty name is refused and the old one kept;
        any other name replaces it. */
    method SetName(newName: string) returns (status: Status)
      modifies this
      ensures newName == "" ==> status == ValueError("Name cannot be empty") && name == old(name)
      ensures newName != "" ==> status == Done && name == newName
    {
      if newName == "" {
        return ValueError("Name cannot be empty");
      }
      name := newName;
      return Done;
    }
  }

  /** Two greetings are equal exactly when the names are: greeting loses
      nothing. */
  lemma GreetInjective(a: Example, b: Example)
    ensures a.Greet() == b.Greet() <==> a.name == b.name
  {
    if a.Greet() == b.Greet() {
      assert a.name == a.Greet()[11..|a.Greet()| - 1];
    }
  }

  /** A fresh instance with no name greets as "Hello from MicroGenesis!",
      and a refused rename leaves the greeting as it was. */
  method DefaultGreeting() returns (before: string, after: string)
    ensures before == "Hello from MicroGenesis!" && after == before
  {
    var e := new Example();
    before := e.Greet();
    var status := e.SetName("");
    assert status.ValueError?;
    after := e.Greet();
  }
}
