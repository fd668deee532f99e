/** The role enum of a user and its lenient parser `UserRole.fromString`. */
module UserRoles {
  import opened Common

  datatype UserRole = ADMIN | USER | CUSTOMER

  /** `Enum.name()`: the constant's identifier. */
  function Name(r: UserRole): string
  {
    match r
    case ADMIN => "ADMIN"
    case USER => "USER"
    case CUSTOMER => "CUSTOMER"
  }

  /** `getRole()`: the lower-case label the constant is declared with. */
  function GetRole(r: UserRole): string
  {
    match r
    case ADMIN => "admin"
    case USER => "user"
    case CUSTOMER => "customer"
  }

  /** `values()`, in declaration order. */
  const Values: seq<UserRole> := [ADMIN, USER, CUSTOMER]

  /** The test applied to each constant: its name or its label, ignoring case. */
  predicate Matches(r: UserRole, value: string)
  {
    EqualsIgnoreCase(Name(r), value) || EqualsIgnoreCase(GetRole(r), value)
  }

  /** The loop over `values()` with its early return: the first constant that matches. */
  function Search(rs: seq<UserRole>, value: string): (r: Option<UserRole>)
    ensures r.Some? ==> r.value in rs && Matches(r.value, value)
    ensures r.None? <==> forall x :: x in rs ==> !Matches(x, value)
  {
    if rs == [] then None
    else if Matches(rs[0], value) then Some(rs[0])
    else Search(rs[1..], value)
  }

  /** `UserRole.fromString`: null gives null; otherwise the first constant whose
      name or label equals the value ignoring case; then the misspelling
      "custumer"; otherwise `IllegalArgumentException`. */
  function FromString(value: Option<string>): (r: Result<Option<UserRole>>)
    ensures value.None? ==> r == Ok(None)
    ensures value.Some? && r.Ok? ==> r.value.Some?
    ensures value.Some? ==>
      (r.Ok? <==> (exists x :: Matches(x, value.value)) || EqualsIgnoreCase("custumer", value.value))
    ensures r.Err? ==> value.Some? && r.failure == IllegalArgument("Invalid role: " + value.value)
  {
    match value
    case None => Ok(None)
    case Some(v) =>
      var found := Search(Values, v);
      if found.Some? then Ok(Some(found.value))
      else if EqualsIgnoreCase("custumer", v) then Ok(Some(CUSTOMER))
      else
        assert forall x: UserRole :: x in Values by {
          forall x: UserRole ensures x in Values {
            assert Values[0] == ADMIN && Values[1] == USER && Values[2] == CUSTOMER;
            assert x == Values[0] || x == Values[1] || x == Values[2];
          }
        }
        Err(IllegalArgument("Invalid role: " + v))
  }

  /** Every string a constant accepts has that constant's length, and the three
      lengths differ, so at most one constant accepts a given string. */
  lemma MatchesLength(x: UserRole, value: string)
    requires Matches(x, value)
    ensures |value| == |Name(x)|
  {
  }

  /** `fromString` returns a constant exactly when that constant's name or label
      equals the value ignoring case, or the constant is CUSTOMER and the value
      is "custumer" in any case. */
  lemma {:induction false} FromStringExact(value: string, x: UserRole)
    ensures FromString(Some(value)) == Ok(Some(x)) <==>
      Matches(x, value) || (x == CUSTOMER && EqualsIgnoreCase("custumer", value))
  {
    var found := Search(Values, value);
    if Matches(x, value) {
      MatchesLength(x, value);
      if found.Some? {
        MatchesLength(found.value, value);
        assert found.value == x by {
          assert |Name(found.value)| == |Name(x)|;
        }
      }
    }
    if found.Some? {
      MatchesLength(found.value, value);
      if x == CUSTOMER && EqualsIgnoreCase("custumer", value) {
        assert |value| == 8;
        assert found.value == CUSTOMER;
      }
    }
  }

  /** Round trip: parsing a constant's name or its label gives back that constant. */
  lemma {:induction false} FromStringRoundTrip(x: UserRole)
    ensures FromString(Some(Name(x))) == Ok(Some(x))
    ensures FromString(Some(GetRole(x))) == Ok(Some(x))
  {
    assert EqualsIgnoreCase(Name(x), Name(x));
    assert EqualsIgnoreCase(GetRole(x), GetRole(x));
    FromStringExact(Name(x), x);
    NameMatchesLabel(x);
    FromStringExact(GetRole(x), x);
  }

  /** A constant's name and its label differ only in case. */
  lemma NameMatchesLabel(x: UserRole)
    ensures EqualsIgnoreCase(Name(x), GetRole(x))
  {
    forall i | 0 <= i < |Name(x)| ensures CharEqualsIgnoreCase(Name(x)[i], GetRole(x)[i]) {
      assert LowerAscii(Name(x)[i]) == GetRole(x)[i];
    }
  }

  /** The misspelling is accepted in any case, e.g. "CUSTUMER". */
  lemma MisspellingAccepted()
    ensures FromString(Some("CUSTUMER")) == Ok(Some(CUSTOMER))
    ensures FromString(Some("custumer")) == Ok(Some(CUSTOMER))
  {
    assert EqualsIgnoreCase("custumer", "CUSTUMER") by {
      forall i | 0 <= i < 8 ensures CharEqualsIgnoreCase("custumer"[i], "CUSTUMER"[i]) {
        assert UpperAscii("custumer"[i]) == "CUSTUMER"[i];
      }
    }
    assert EqualsIgnoreCase("custumer", "custumer");
    FromStringExact("CUSTUMER", CUSTOMER);
    FromStringExact("custumer", CUSTOMER);
  }

  /** Any other string, such as "manager", is refused with the value in the message. */
  lemma InvalidRoleRefused()
    ensures FromString(Some("manager")) == Err(IllegalArgument("Invalid role: manager"))
  {
  }
}
