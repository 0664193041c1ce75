/** Persons (src/unl/soc/Person.java) and their addresses. */
module Persons {

  /** A postal address; the Address class is compared field by field. */
  datatype Address = Address(street: string, city: string, state: string, zipCode: int)

  /** What a person's equals compares: everything but the storage id. */
  datatype PersonRecord = PersonRecord(
    uuid: string, firstName: string, lastName: string, address: Address, emails: seq<string>)

  class Person {
    const id: int
    const uuid: string
    const firstName: string
    const lastName: string
    const address: Address
    /** The email list, in the order the addresses were given or added. */
    var emails: seq<string>

    /** Person(id, uuid, firstName, lastName, address, emailList). */
    constructor (id: int, uuid: string, firstName: string, lastName: string, address: Address,
                 emails: seq<string>)
      ensures this.id == id && Record() == PersonRecord(uuid, firstName, lastName, address, emails)
    {
      this.id := id;
      this.uuid := uuid;
      this.firstName := firstName;
      this.lastName := lastName;
      this.address := address;
      this.emails := emails;
    }

    /** Person(id, uuid, firstName, lastName, address): no email yet. */
    constructor WithoutEmails(id: int, uuid: string, firstName: string, lastName: string,
                              address: Address)
      ensures this.id == id && Record() == PersonRecord(uuid, firstName, lastName, address, [])
    {
      this.id := id;
      this.uuid := uuid;
      this.firstName := firstName;
      this.lastName := lastName;
      this.address := address;
      this.emails := [];
    }

    /** Person(uuid, firstName, lastName, address, emailList): the id keeps
        Java's default 0. */
    constructor WithoutId(uuid: string, firstName: string, lastName: string, address: Address,
                          emails: seq<string>)
      ensures this.id == 0 && Record() == PersonRecord(uuid, firstName, lastName, address, emails)
    {
      this.id := 0;
      this.uuid := uuid;
      this.firstName := firstName;
      this.lastName := lastName;
      this.address := address;
      this.emails := emails;
    }

    function Record(): PersonRecord
      reads this
    {
      PersonRecord(uuid, firstName, lastName, address, emails)
    }

    /** addEmail: one more address at the end, nothing else changes. */
    method AddEmail(email: string)
      modifies this
      ensures emails == old(emails) + [email]
      ensures |emails| == |old(emails)| + 1 && emails[..|old(emails)|] == old(emails)
    {
      emails := emails + [email];
    }

    /** getEmailList: a copy of the list; being a value, changing it cannot
        change the person. */
    method EmailList() returns (r: seq<string>)
      ensures r == emails
    {
      r := emails;
    }

    /** equals: uuid, names, address and emails agree; the id is ignored. */
    predicate Equals(other: Person)
      reads this, other
      ensures Equals(other) <==> Record() == other.Record()
    {
      uuid == other.uuid && firstName == other.firstName && lastName == other.lastName
      && address == other.address && emails == other.emails
    }
  }

  /** Objects.equals on two possibly-null persons. */
  predicate SamePerson(a: Person?, b: Person?)
    reads a, b
  {
    a == b || (a != null && b != null && a.Equals(b))
  }
}
