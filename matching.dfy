/** The pairwise eligibility predicate `check_match` of matcher.py and what
    it promises about each of its five rules. */
module Matching {
  import opened Models

  /** Wildcard a buyer uses for "no restriction" on race and on sex. */
  const Any: string := "Any"

  /** Python's `sub in s` on strings: `sub` is a contiguous block of `s`
      (the empty string is in every string). */
  function Contains(s: string, sub: string): bool
    decreases |s|
  {
    |sub| <= |s| && (s[..|sub|] == sub || (0 < |s| && Contains(s[1..], sub)))
  }

  /** `sub` occurs in `s` starting at index `i`. */
  ghost predicate OccursAt(s: string, sub: string, i: int)
  {
    0 <= i && i + |sub| <= |s| && s[i..i + |sub|] == sub
  }

  /** An occurrence past index 0 is an occurrence in the tail, one index earlier. */
  lemma OccursShift(s: string, sub: string, i: int)
    requires 0 < |s| && 0 < i
    ensures OccursAt(s, sub, i) <==> OccursAt(s[1..], sub, i - 1)
  {
    if i + |sub| <= |s| {
      assert s[1..][i - 1..i - 1 + |sub|] == s[i..i + |sub|];
    }
  }

  /** The scan above decides exactly whether `sub` occurs somewhere in `s`. */
  lemma {:induction false} ContainsIffOccurs(s: string, sub: string)
    ensures Contains(s, sub) <==> exists i :: OccursAt(s, sub, i)
    decreases |s|
  {
    if |sub| <= |s| {
      assert s[0..|sub|] == s[..|sub|];
      if s[..|sub|] == sub {
        assert OccursAt(s, sub, 0);
      } else if 0 < |s| {
        ContainsIffOccurs(s[1..], sub);
        if Contains(s[1..], sub) {
          var j :| OccursAt(s[1..], sub, j);
          OccursShift(s, sub, j + 1);
        } else {
          forall i | 0 < i ensures !OccursAt(s, sub, i) {
            OccursShift(s, sub, i);
          }
        }
      }
    }
  }

  /** check_match: the farmer (supply) and buyer (demand) are compatible.
      Each guard returns false as soon as its rule fails, in the source's order. */
  function CheckMatch(farmer: Farmer, buyer: Buyer): bool
  {
    if farmer.location !in buyer.locations then false
    else if buyer.race != Any && buyer.race != farmer.race then false
    else if buyer.sex != Any && !Contains(farmer.sex, buyer.sex) then false
    else if !(buyer.ageMin <= farmer.age <= buyer.ageMax) then false
    else if farmer.quantity < buyer.quantity then false
    else true
  }

  /** The sex rule, stated without the scan: wildcard, or the buyer's sex
      occurs somewhere in the farmer's. */
  ghost predicate SexAccepted(farmerSex: string, buyerSex: string)
  {
    buyerSex == Any || exists i :: OccursAt(farmerSex, buyerSex, i)
  }

  /** A match holds exactly when all five rules hold. */
  lemma CheckMatchIffAllRules(f: Farmer, b: Buyer)
    ensures CheckMatch(f, b) <==>
      && f.location in b.locations
      && (b.race == Any || b.race == f.race)
      && SexAccepted(f.sex, b.sex)
      && b.ageMin <= f.age <= b.ageMax
      && f.quantity >= b.quantity
  {
    ContainsIffOccurs(f.sex, b.sex);
  }

  /** Location is a hard filter: a farmer whose place is not listed never matches. */
  lemma UnlistedLocationNeverMatches(f: Farmer, b: Buyer)
    requires f.location !in b.locations
    ensures !CheckMatch(f, b)
  {
  }

  /** Listing more places never turns a match into a non-match. */
  lemma MoreLocationsKeepMatch(f: Farmer, b: Buyer, more: seq<string>)
    requires forall l :: l in b.locations ==> l in more
    requires CheckMatch(f, b)
    ensures CheckMatch(f, b.(locations := more))
  {
  }

  /** A buyer race of "Any" makes the farmer's race irrelevant. */
  lemma AnyRaceIgnoresFarmerRace(f: Farmer, b: Buyer, race: string)
    requires b.race == Any
    ensures CheckMatch(f, b) == CheckMatch(f.(race := race), b)
  {
  }

  /** Any other buyer race accepts only exactly that farmer race. */
  lemma SpecificRaceNeedsEquality(f: Farmer, b: Buyer)
    requires b.race != Any
    requires CheckMatch(f, b)
    ensures f.race == b.race
  {
  }

  /** A buyer sex of "Any" makes the farmer's sex irrelevant. */
  lemma AnySexIgnoresFarmerSex(f: Farmer, b: Buyer, sex: string)
    requires b.sex == Any
    ensures CheckMatch(f, b) == CheckMatch(f.(sex := sex), b)
  {
  }

  /** Sex is a case-sensitive substring test, not equality: "Male" accepts
      "Male (Bull)", but not "Female", whose "male" is lower-case. */
  lemma SexIsSubstringTest()
    ensures Contains("Male (Bull)", "Male")
    ensures !Contains("Female", "Male")
    ensures !Contains("Male", "Female")
  {
    var female: string := "Female";
    ContainsIffOccurs(female, "Male");
    forall i | 0 <= i <= 2 ensures !OccursAt(female, "Male", i) {
      assert female[i..i + 4][0] == female[i] != 'M';
    }
  }

  /** Both age bounds are inclusive. */
  lemma AgeBoundsInclusive(f: Farmer, b: Buyer)
    requires f.age == b.ageMin || f.age == b.ageMax
    requires b.ageMin <= b.ageMax
    requires f.location in b.locations && (b.race == Any || b.race == f.race)
    requires b.sex == Any || Contains(f.sex, b.sex)
    requires f.quantity >= b.quantity
    ensures CheckMatch(f, b)
  {
  }

  /** With every other rule passing, the result is decided by the age range alone. */
  lemma AgeRangeDecides(f: Farmer, b: Buyer)
    requires f.location in b.locations && (b.race == Any || b.race == f.race)
    requires b.sex == Any || Contains(f.sex, b.sex)
    requires f.quantity >= b.quantity
    ensures CheckMatch(f, b) <==> b.ageMin <= f.age <= b.ageMax
  {
  }

  /** The quantity rule fails exactly when the farmer offers fewer head than
      the buyer asks for. */
  lemma QuantityRuleDecides(f: Farmer, b: Buyer)
    requires f.location in b.locations && (b.race == Any || b.race == f.race)
    requires b.sex == Any || Contains(f.sex, b.sex)
    requires b.ageMin <= f.age <= b.ageMax
    ensures !CheckMatch(f, b) <==> f.quantity < b.quantity
  {
  }

  /** A buyer whose submission omitted both age bounds passes the age rule
      exactly for ages 0 to 100. */
  lemma OmittedAgeBoundsAreZeroToHundred(f: Farmer, locations: seq<string>, race: string, sex: string,
                                         quantity: int, contact: string, id: string, timestamp: Timestamp)
    requires f.location in locations && (race == Any || race == f.race)
    requires sex == Any || Contains(f.sex, sex)
    requires f.quantity >= quantity
    ensures CheckMatch(f, NewBuyer(locations, race, None, None, sex, quantity, contact, id, timestamp))
            <==> 0 <= f.age <= 100
  {
  }
}
