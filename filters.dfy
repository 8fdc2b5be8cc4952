/** The filter validator of the api package: the fixed character classes each
    GET filter parameter must satisfy, and the helper that stores a validated
    value or answers 400. */
module Filters {
  import opened Base
  import opened Strconv
  import opened Http

  /** The regular expression `\d` finds a match: some character is an ASCII digit. */
  predicate MatchesDigit(s: string) { exists i :: 0 <= i < |s| && IsDigit(s[i]) }

  /** The regular expression `\D` finds a match: some character is not an ASCII digit. */
  predicate MatchesNonDigit(s: string) { exists i :: 0 <= i < |s| && !IsDigit(s[i]) }

  predicate NoDigits(s: string) { forall i :: 0 <= i < |s| ==> !IsDigit(s[i]) }

  /** `word` occurs in `s` starting at index `i`. */
  predicate OccursAt(s: string, word: string, i: int)
  {
    0 <= i && i + |word| <= |s| && s[i..i + |word|] == word
  }

  predicate Contains(s: string, word: string) { exists i :: 0 <= i <= |s| && OccursAt(s, word, i) }

  /** The regular expression `male|female` finds a match somewhere in `s`. */
  predicate MatchesMaleOrFemale(s: string) { Contains(s, "male") || Contains(s, "female") }

  /** Every "female" holds a "male", so the alternation adds nothing to its first branch. */
  lemma FemaleContainsMale(s: string)
    ensures MatchesMaleOrFemale(s) <==> Contains(s, "male")
  {
    if Contains(s, "female") {
      var i :| 0 <= i <= |s| && OccursAt(s, "female", i);
      assert s[i + 2..i + 6] == s[i..i + 6][2..6] == "male";
      assert OccursAt(s, "male", i + 2);
    }
  }

  /** What validateAndReturnFilter returns: the value, and the error when there is one. */
  datatype Validated = Validated(value: string, err: Option<string>)

  /** validateAndReturnFilter.  A gender needs no digit and "male" somewhere in it (a
      substring, not an exact value); ageplus and ageminus need digits only (the empty
      string passes, a sign does not); a nationality needs no digit; any other name
      is refused.  A refused value comes back as "". */
  function ValidateAndReturnFilter(filterType: string, filter: string): (r: Validated)
    ensures r.err.None? ==> r.value == filter
    ensures r.err.Some? ==> r.value == ""
    ensures filterType == "gender" ==> (r.err.None? <==> NoDigits(filter) && Contains(filter, "male"))
    ensures filterType == "ageplus" || filterType == "ageminus" ==> (r.err.None? <==> AllDigits(filter))
    ensures filterType == "nationality" ==> (r.err.None? <==> NoDigits(filter))
    ensures filterType !in {"gender", "ageplus", "ageminus", "nationality"} ==>
              r == Validated("", Some("query parameter is undefined"))
    ensures filterType == "gender" && r.err.Some? ==> r.err.value == "gender query parameter is not valid"
    ensures filterType == "ageplus" && r.err.Some? ==> r.err.value == "ageplus query parameter is not valid"
    ensures filterType == "ageminus" && r.err.Some? ==> r.err.value == "ageminus query parameter is not valid"
    ensures filterType == "nationality" && r.err.Some? ==> r.err.value == "nationality query parameter is not valid"
  {
    match filterType
    case "gender" =>
      FemaleContainsMale(filter);
      if MatchesDigit(filter) || !MatchesMaleOrFemale(filter)
      then Validated("", Some("gender query parameter is not valid"))
      else Validated(filter, None)
    case "ageplus" =>
      if MatchesNonDigit(filter)
      then Validated("", Some("ageplus query parameter is not valid"))
      else Validated(filter, None)
    case "ageminus" =>
      if MatchesNonDigit(filter)
      then Validated("", Some("ageminus query parameter is not valid"))
      else Validated(filter, None)
    case "nationality" =>
      if MatchesDigit(filter)
      then Validated("", Some("nationality query parameter is not valid"))
      else Validated(filter, None)
    case _ =>
      Validated("", Some("query parameter is undefined"))
  }

  /** The edge cases of the character classes. */
  lemma FilterEdgeCases()
    ensures ValidateAndReturnFilter("gender", "male").err.None?
    ensures ValidateAndReturnFilter("gender", "female").err.None?
    ensures ValidateAndReturnFilter("gender", "femalemale").err.None?
    ensures ValidateAndReturnFilter("gender", "xmalex").err.None?
    ensures ValidateAndReturnFilter("gender", "other").err == Some("gender query parameter is not valid")
    ensures ValidateAndReturnFilter("gender", "3male").err.Some?
    ensures ValidateAndReturnFilter("ageplus", "").err.None?
    ensures ValidateAndReturnFilter("ageminus", "-5").err.Some?
    ensures ValidateAndReturnFilter("nationality", "US1").err.Some?
    ensures ValidateAndReturnFilter("limit", "10").err == Some("query parameter is undefined")
  {
    assert OccursAt("male", "male", 0);
    assert OccursAt("female", "male", 2);
    assert OccursAt("femalemale", "male", 2);
    assert OccursAt("xmalex", "male", 1);
    assert IsDigit("3male"[0]);
    assert !IsDigit("-5"[0]);
    assert IsDigit("US1"[2]);
    forall i | 0 <= i <= 5 ensures !OccursAt("other", "male", i) {
      if i + 4 <= 5 {
        assert "other"[i..i + 4][0] == "other"[i] != 'm';
      }
    }
  }

  /** createStringFilter: stores what the validator returns in the caller's variable (""
      on a refusal) and, on a refusal, answers 400 with the validator's message. */
  method CreateStringFilter(w: ResponseWriter, filterType: string, filter: string)
    returns (filterName: string, err: Option<string>)
    modifies w
    ensures Validated(filterName, err) == ValidateAndReturnFilter(filterType, filter)
    ensures err.Some? ==> w.status == (if old(w.status).None? then Some(StatusBadRequest) else old(w.status))
    ensures err.Some? ==> w.body == old(w.body) + [Text(err.value + "\n")]
    ensures err.None? ==> w.status == old(w.status) && w.body == old(w.body)
  {
    var validated := ValidateAndReturnFilter(filterType, filter);
    filterName, err := validated.value, validated.err;
    if err.Some? {
      w.Error(err.value, StatusBadRequest);
    }
  }
}
