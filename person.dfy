/** The service's one entity: a person record, as stored in the `persons` table
    and exchanged as JSON. */
module Types {
  import opened Base

  datatype Person = Person(
    id: int64,
    name: string,
    surname: string,
    patronymic: string,
    age: int64,
    gender: string,
    nationality: string)

  /** NewPerson: every argument lands in the field of the same name (the parameters
      come in the order gender, nationality, age, unlike the fields), nothing is
      checked, and the id is left at Go's zero value. */
  function NewPerson(name: string, surname: string, patronymic: string,
                     gender: string, nationality: string, age: int64): (p: Person)
    ensures p.name == name && p.surname == surname && p.patronymic == patronymic
    ensures p.gender == gender && p.nationality == nationality && p.age == age
    ensures p.id == 0
  {
    Person(0, name, surname, patronymic, age, gender, nationality)
  }

  /** Rebuilding a record from its own fields with NewPerson loses the id and nothing else. */
  lemma NewPersonDropsOnlyId(p: Person)
    ensures NewPerson(p.name, p.surname, p.patronymic, p.gender, p.nationality, p.age) == p.(id := 0)
  {
  }
}
