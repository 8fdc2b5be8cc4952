/** The enrichment client of the api package: the rules applied to what the
    age, gender and nationality lookup services answer for a first name, and the
    routine that writes their results into a person record one field at a time.
    The HTTP call and the JSON decoding are not modelled: each lookup is given
    as its outcome. */
module Enrichment {
  import opened Base
  import opened Types

  /** The outcome of one lookup: the request or the body read failed
      (getInfoFromExternalApi), the body did not decode (json.Unmarshal), or the
      decoded payload. */
  datatype Lookup<T> = FetchFailed(err: string) | UnmarshalFailed(err: string) | Payload(value: T)

  /** One candidate country of the nationality service.  The float64 probability is
      only ever compared, so it is modelled as a real. */
  datatype Country = Country(countryId: string, probability: real)

  /** What each service answers for a given name. */
  datatype Enrichers = Enrichers(
    age: string -> Lookup<int64>,
    gender: string -> Lookup<string>,
    nationality: string -> Lookup<seq<Country>>)

  /** getAge: fails exactly when no payload arrived or its age is 0; any other age,
      negative ones included, is returned as it is.  It never ends the process. */
  function GetAge(lookup: Lookup<int64>): (r: Result<int64, Error>)
    ensures r.Ok? <==> lookup.Payload? && lookup.value != 0
    ensures r.Ok? ==> r.value == lookup.value
    ensures r.Err? ==> r.error.Message?
  {
    match lookup
    case FetchFailed(_) => Err(Message("cant get body age"))
    case UnmarshalFailed(_) => Err(Message("cant unmarshal to age"))
    case Payload(age) =>
      if age == 0 then Err(Message("can't determine age, check if name is valid")) else Ok(age)
  }

  /** getGender: fails exactly when no payload arrived or its gender is empty; any
      other string is returned as it is, not only "male" and "female". */
  function GetGender(lookup: Lookup<string>): (r: Result<string, Error>)
    ensures r.Ok? <==> lookup.Payload? && lookup.value != ""
    ensures r.Ok? ==> r.value == lookup.value
    ensures r.Err? ==> r.error.Message?
  {
    match lookup
    case FetchFailed(_) => Err(Message("cant get body gender"))
    case UnmarshalFailed(_) => Err(Message("cant unmarshal to gender"))
    case Payload(gender) =>
      if gender == "" then Err(Message("can't determine gender, check if name is valid")) else Ok(gender)
  }

  /** The error getNationality ends with, if any.  A failed fetch or decode goes to
      log.Fatalf, which ends the process; an empty country list is an ordinary error. */
  function NationalityError(lookup: Lookup<seq<Country>>): Option<Error>
  {
    match lookup
    case FetchFailed(e) => Some(Fatal("cant get body nationality " + e))
    case UnmarshalFailed(e) => Some(Fatal("cant unmarshal to nationality " + e))
    case Payload(countries) =>
      if |countries| == 0 then Some(Message("can't determine nationality, check if name is valid")) else None
  }

  /** `id` is the id of an entry whose probability no other entry exceeds. */
  predicate IsMostProbable(countries: seq<Country>, id: string)
  {
    exists i :: 0 <= i < |countries| && countries[i].countryId == id &&
      forall j :: 0 <= j < |countries| ==> countries[j].probability <= countries[i].probability
  }

  predicate SortedByProbability(s: seq<Country>)
  {
    forall i, j :: 0 <= i < j < |s| ==> s[i].probability <= s[j].probability
  }

  method Swap(a: array<Country>, i: int, j: int)
    requires 0 <= i < a.Length && 0 <= j < a.Length
    modifies a
    ensures a[i] == old(a[j]) && a[j] == old(a[i])
    ensures forall k :: 0 <= k < a.Length && k != i && k != j ==> a[k] == old(a[k])
    ensures multiset(a[..]) == old(multiset(a[..]))
  {
    a[i], a[j] := a[j], a[i];
  }

  /** The in-place sort of getNationality, ascending by probability.  Go's sort.Slice
      is not stable, so only "sorted" and "a permutation" are promised, never an order
      among equal probabilities. */
  method SortByProbability(a: array<Country>)
    modifies a
    ensures SortedByProbability(a[..])
    ensures multiset(a[..]) == old(multiset(a[..]))
  {
    var i := 0;
    while i < a.Length
      invariant 0 <= i <= a.Length
      invariant forall k, l :: 0 <= k < l < i ==> a[k].probability <= a[l].probability
      invariant multiset(a[..]) == old(multiset(a[..]))
    {
      var j := i;
      while j > 0 && a[j - 1].probability > a[j].probability
        invariant 0 <= j <= i
        invariant forall k, l :: 0 <= k < l <= i && k != j && l != j ==> a[k].probability <= a[l].probability
        invariant forall l :: j < l <= i ==> a[j].probability < a[l].probability
        invariant multiset(a[..]) == old(multiset(a[..]))
      {
        Swap(a, j - 1, j);
        j := j - 1;
      }
      i := i + 1;
    }
  }

  /** The last element of a non-empty sorted permutation of `countries` is a most
      probable entry of `countries`. */
  lemma LastOfSortedIsMostProbable(countries: seq<Country>, sorted: seq<Country>)
    requires |sorted| > 0 && SortedByProbability(sorted)
    requires multiset(sorted) == multiset(countries)
    ensures IsMostProbable(countries, sorted[|sorted| - 1].countryId)
  {
    var last := sorted[|sorted| - 1];
    assert last in multiset(countries);
    var i :| 0 <= i < |countries| && countries[i] == last;
    forall j | 0 <= j < |countries| ensures countries[j].probability <= last.probability {
      assert countries[j] in multiset(sorted);
      var k :| 0 <= k < |sorted| && sorted[k] == countries[j];
    }
  }

  /** getNationality: the error of NationalityError when there is one; otherwise it
      sorts the candidates by probability and answers the id of the last, which is
      a most probable one. */
  method GetNationality(lookup: Lookup<seq<Country>>) returns (r: Result<string, Error>)
    ensures r.Err? <==> NationalityError(lookup).Some?
    ensures r.Err? ==> r.error == NationalityError(lookup).value
    ensures r.Ok? ==> lookup.Payload? && IsMostProbable(lookup.value, r.value)
  {
    match lookup
    case FetchFailed(e) =>
      r := Err(Fatal("cant get body nationality " + e));
    case UnmarshalFailed(e) =>
      r := Err(Fatal("cant unmarshal to nationality " + e));
    case Payload(countries) =>
      if |countries| == 0 {
        r := Err(Message("can't determine nationality, check if name is valid"));
      } else {
        var a := new Country[|countries|](i requires 0 <= i < |countries| => countries[i]);
        assert a[..] == countries;
        SortByProbability(a);
        var mostProbable := a[a.Length - 1];
        ghost var sorted := a[..];
        assert mostProbable == sorted[|sorted| - 1];
        LastOfSortedIsMostProbable(countries, sorted);
        r := Ok(mostProbable.countryId);
      }
  }

  /** A non-empty candidate list always has a most probable entry, so getNationality
      can always answer one. */
  lemma {:induction false} MostProbableExists(countries: seq<Country>)
    requires |countries| > 0
    ensures exists id :: IsMostProbable(countries, id)
  {
    if |countries| == 1 {
      assert IsMostProbable(countries, countries[0].countryId);
    } else {
      var rest := countries[1..];
      MostProbableExists(rest);
      var id :| IsMostProbable(rest, id);
      var i :| 0 <= i < |rest| && rest[i].countryId == id &&
        forall j :: 0 <= j < |rest| ==> rest[j].probability <= rest[i].probability;
      if countries[0].probability <= rest[i].probability {
        assert IsMostProbable(countries, id) by {
          assert countries[i + 1] == rest[i];
          forall j | 0 <= j < |countries| ensures countries[j].probability <= countries[i + 1].probability {
            if j > 0 { assert countries[j] == rest[j - 1]; }
          }
        }
      } else {
        assert IsMostProbable(countries, countries[0].countryId) by {
          forall j | 0 <= j < |countries| ensures countries[j].probability <= countries[0].probability {
            if j > 0 { assert countries[j] == rest[j - 1]; }
          }
        }
      }
    }
  }

  /** When one entry is strictly more probable than all others, the answer is its id. */
  lemma MostProbableUnique(countries: seq<Country>, i: nat, id: string)
    requires i < |countries|
    requires forall j :: 0 <= j < |countries| && j != i ==> countries[j].probability < countries[i].probability
    requires IsMostProbable(countries, id)
    ensures id == countries[i].countryId
  {
    var k :| 0 <= k < |countries| && countries[k].countryId == id &&
      forall j :: 0 <= j < |countries| ==> countries[j].probability <= countries[k].probability;
    assert countries[i].probability <= countries[k].probability;
  }

  /** Tied maxima: for US 0.5, GB 0.9, FR 0.9 both GB and FR are acceptable answers
      and nothing else is; which one comes out is left to the sort. */
  lemma TiedMaxima()
    ensures var countries := [Country("US", 0.5), Country("GB", 0.9), Country("FR", 0.9)];
            IsMostProbable(countries, "GB") && IsMostProbable(countries, "FR") &&
            forall id :: IsMostProbable(countries, id) ==> id == "GB" || id == "FR"
  {
    var countries := [Country("US", 0.5), Country("GB", 0.9), Country("FR", 0.9)];
    assert countries[1].countryId == "GB";
    assert countries[2].countryId == "FR";
    forall id | IsMostProbable(countries, id) ensures id == "GB" || id == "FR" {
      var k :| 0 <= k < |countries| && countries[k].countryId == id &&
        forall j :: 0 <= j < |countries| ==> countries[j].probability <= countries[k].probability;
      assert countries[1].probability <= countries[k].probability;
    }
  }

  /** The first error of the three lookups, taken in the order age, gender,
      nationality; None when all three succeed. */
  function EnrichmentError(name: string, apis: Enrichers): Option<Error>
  {
    var age := GetAge(apis.age(name));
    if age.Err? then Some(age.error)
    else
      var gender := GetGender(apis.gender(name));
      if gender.Err? then Some(gender.error)
      else NationalityError(apis.nationality(name))
  }

  /** The candidate countries the nationality service answered, if it did. */
  function Countries(lookup: Lookup<seq<Country>>): seq<Country>
  {
    if lookup.Payload? then lookup.value else []
  }

  /** fetchExternalApiData: asks for the age, then the gender, then the nationality of
      p.name, writing each into the record as soon as it is known and stopping at the
      first error.  A field whose lookup was not reached, or failed, keeps its value;
      one set before the failure stays set. */
  method FetchExternalApiData(p: Person, apis: Enrichers) returns (q: Person, err: Option<Error>)
    ensures err == EnrichmentError(p.name, apis)
    ensures q.id == p.id && q.name == p.name && q.surname == p.surname && q.patronymic == p.patronymic
    ensures var age := GetAge(apis.age(p.name));
            q.age == if age.Ok? then age.value else p.age
    ensures var age, gender := GetAge(apis.age(p.name)), GetGender(apis.gender(p.name));
            q.gender == if age.Ok? && gender.Ok? then gender.value else p.gender
    ensures err.None? ==> IsMostProbable(Countries(apis.nationality(p.name)), q.nationality)
    ensures err.Some? ==> q.nationality == p.nationality
  {
    q := p;
    var age := GetAge(apis.age(q.name));
    if age.Err? {
      return q, Some(age.error);
    }
    q := q.(age := age.value);
    var gender := GetGender(apis.gender(q.name));
    if gender.Err? {
      return q, Some(gender.error);
    }
    q := q.(gender := gender.value);
    var nationality := GetNationality(apis.nationality(q.name));
    if nationality.Err? {
      return q, Some(nationality.error);
    }
    q := q.(nationality := nationality.value);
    err := None;
  }
}
