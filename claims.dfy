/** Claims, identities and principals, and the claim-defaulting rule of
    ApiKeyUtils.BuildClaimsPrincipal. */
module Claims {
  import opened Common

  /** ClaimTypes.NameIdentifier. */
  const NameIdentifierType := "http://schemas.xmlsoap.org/ws/2005/05/identity/claims/nameidentifier"
  /** ClaimTypes.Name. */
  const NameType := "http://schemas.xmlsoap.org/ws/2005/05/identity/claims/name"
  /** ClaimValueTypes.String. */
  const StringValueType := "http://www.w3.org/2001/XMLSchema#string"
  /** ClaimsIdentity.DefaultIssuer: the issuer of a claim created without one. */
  const DefaultIssuer := "LOCAL AUTHORITY"

  datatype Claim = Claim(claimType: string, value: string, valueType: string, issuer: string)

  /** A ClaimsIdentity; it is authenticated when its authentication type is
      neither null nor empty. */
  datatype Identity = Identity(authenticationType: NString, claims: seq<Claim>)

  /** A ClaimsPrincipal; its `Identity` is the first of its identities. */
  datatype Principal = Principal(identities: seq<Identity>)

  /** `new Claim(type, value, valueType, issuer)`: a null or empty issuer
      becomes the default issuer. */
  function NewClaim(claimType: string, value: string, valueType: string, issuer: NString): (c: Claim)
    ensures c.claimType == claimType && c.value == value && c.valueType == valueType
    ensures !IsNullOrEmpty(issuer) ==> c.issuer == issuer.value
    ensures IsNullOrEmpty(issuer) ==> c.issuer == DefaultIssuer
  {
    Claim(claimType, value, valueType, if IsNullOrEmpty(issuer) then DefaultIssuer else issuer.value)
  }

  /** `principal?.Identity != null && principal.Identity.IsAuthenticated`. */
  predicate IsAuthenticated(p: Option<Principal>) {
    p.Some? && |p.value.identities| > 0 && !IsNullOrEmpty(p.value.identities[0].authenticationType)
  }

  /** All claims of a principal, identity by identity. */
  function AllClaims(ids: seq<Identity>): (r: seq<Claim>)
    ensures |ids| == 1 ==> r == ids[0].claims
    ensures |ids| > 0 ==> |r| >= |ids[0].claims| && r[..|ids[0].claims|] == ids[0].claims
  {
    if ids == [] then [] else ids[0].claims + AllClaims(ids[1..])
  }

  /** The claims of a principal made of two lists of identities are the
      claims of the first followed by those of the second. */
  lemma {:induction false} AllClaimsConcat(a: seq<Identity>, b: seq<Identity>)
    ensures AllClaims(a + b) == AllClaims(a) + AllClaims(b)
    decreases |a|
  {
    if a == [] {
      assert a + b == b;
    } else {
      assert (a + b)[0] == a[0];
      assert (a + b)[1..] == a[1..] + b;
      AllClaimsConcat(a[1..], b);
    }
  }

  /** `claims.Any(c => c.Type.Equals(claimType, OrdinalIgnoreCase))`. */
  predicate HasClaimType(claims: seq<Claim>, claimType: string): (r: bool)
    ensures claims == [] ==> !r
    ensures |claims| > 0 && SameIgnoreCase(claims[0].claimType, claimType) ==> r
  {
    exists i :: 0 <= i < |claims| && SameIgnoreCase(claims[i].claimType, claimType)
  }

  /** The claim ApiKeyUtils adds for the owner when no claim of its type is present. */
  function OwnerClaim(claimType: string, ownerName: string, claimsIssuer: NString): Claim {
    NewClaim(claimType, ownerName, StringValueType, claimsIssuer)
  }

  /** The claim list of the principal: the supplied claims, then a
      NameIdentifier claim and then a Name claim for a non-blank owner, each
      only when no claim of that type is already in the list. */
  function DefaultedClaims(ownerName: NString, claimsIssuer: NString, supplied: seq<Claim>): (r: seq<Claim>)
    ensures |supplied| <= |r| <= |supplied| + 2 && r[..|supplied|] == supplied
    ensures IsNullOrWhiteSpace(ownerName) ==> r == supplied
    ensures forall i :: |supplied| <= i < |r| ==>
      ownerName.Some? && r[i].value == ownerName.value && r[i].valueType == StringValueType &&
      r[i].issuer == (if IsNullOrEmpty(claimsIssuer) then DefaultIssuer else claimsIssuer.value) &&
      (r[i].claimType == NameIdentifierType || r[i].claimType == NameType)
  {
    if IsNullOrWhiteSpace(ownerName) then supplied
    else
      var withId :=
        if HasClaimType(supplied, NameIdentifierType) then supplied
        else supplied + [OwnerClaim(NameIdentifierType, ownerName.value, claimsIssuer)];
      if HasClaimType(withId, NameType) then withId
      else withId + [OwnerClaim(NameType, ownerName.value, claimsIssuer)]
  }

  /** A null claims argument contributes no claims. */
  function Supplied(claims: Option<seq<Claim>>): seq<Claim> {
    if claims.Some? then claims.value else []
  }

  /** The value of ApiKeyUtils.BuildClaimsPrincipal: ArgumentNullException
      for a blank scheme name, otherwise a principal with exactly one
      identity, authenticated by the scheme name. */
  function ClaimsPrincipalOf(ownerName: NString, schemeName: NString, claimsIssuer: NString,
                             claims: Option<seq<Claim>>): (r: Outcome<Principal>)
    ensures r.Throw? <==> IsNullOrWhiteSpace(schemeName)
    ensures r.Throw? ==> r.exception == ArgumentNullException("schemeName")
    ensures r.Ok? ==> |r.value.identities| == 1 && r.value.identities[0].authenticationType == schemeName &&
                      AllClaims(r.value.identities) == DefaultedClaims(ownerName, claimsIssuer, Supplied(claims))
  {
    if IsNullOrWhiteSpace(schemeName) then Throw(ArgumentNullException("schemeName"))
    else Ok(Principal([Identity(schemeName, DefaultedClaims(ownerName, claimsIssuer, Supplied(claims)))]))
  }

  /** ApiKeyUtils.BuildClaimsPrincipal, filling a claim list step by step. */
  method BuildClaimsPrincipal(ownerName: NString, schemeName: NString, claimsIssuer: NString,
                              claims: Option<seq<Claim>>) returns (r: Outcome<Principal>)
    ensures r.Throw? <==> IsNullOrWhiteSpace(schemeName)
    ensures r.Throw? ==> r.exception == ArgumentNullException("schemeName")
    ensures r.Ok? ==> |r.value.identities| == 1 && r.value.identities[0].authenticationType == schemeName
    ensures r == ClaimsPrincipalOf(ownerName, schemeName, claimsIssuer, claims)
  {
    if IsNullOrWhiteSpace(schemeName) {
      return Throw(ArgumentNullException("schemeName"));
    }
    var claimsList: seq<Claim> := [];
    if claims.Some? {
      claimsList := claimsList + claims.value;
    }
    assert claimsList == Supplied(claims);
    if !IsNullOrWhiteSpace(ownerName) {
      if !HasClaimType(claimsList, NameIdentifierType) {
        claimsList := claimsList + [NewClaim(NameIdentifierType, ownerName.value, StringValueType, claimsIssuer)];
      }
      if !HasClaimType(claimsList, NameType) {
        claimsList := claimsList + [NewClaim(NameType, ownerName.value, StringValueType, claimsIssuer)];
      }
    }
    return Ok(Principal([Identity(schemeName, claimsList)]));
  }

  // ---------------------------------------------------------------------
  // Properties of the claim-defaulting rule.

  /** A NameIdentifier claim never counts as a Name claim. */
  lemma NameIdentifierIsNotName()
    ensures !SameIgnoreCase(NameIdentifierType, NameType)
  {
    DifferentLengthsDiffer(NameIdentifierType, NameType);
  }

  /** Appending a claim of another type does not change whether a type is present. */
  lemma HasClaimTypeAppend(claims: seq<Claim>, c: Claim, t: string)
    ensures HasClaimType(claims + [c], t) <==> HasClaimType(claims, t) || SameIgnoreCase(c.claimType, t)
  {
    var all := claims + [c];
    if HasClaimType(all, t) {
      var i :| 0 <= i < |all| && SameIgnoreCase(all[i].claimType, t);
      if i < |claims| {
        assert claims[i] == all[i];
      }
    }
    if HasClaimType(claims, t) {
      var i :| 0 <= i < |claims| && SameIgnoreCase(claims[i].claimType, t);
      assert all[i] == claims[i];
    }
    if SameIgnoreCase(c.claimType, t) {
      assert all[|claims|] == c;
    }
  }

  /** With a non-blank owner, the claim after the supplied ones is the owner's
      NameIdentifier claim exactly when no supplied claim has that type. */
  lemma NameIdentifierAddedIff(ownerName: NString, claimsIssuer: NString, supplied: seq<Claim>)
    requires !IsNullOrWhiteSpace(ownerName)
    ensures var r := DefaultedClaims(ownerName, claimsIssuer, supplied);
      (|r| > |supplied| && r[|supplied|] == OwnerClaim(NameIdentifierType, ownerName.value, claimsIssuer))
      <==> !HasClaimType(supplied, NameIdentifierType)
  {
    var r := DefaultedClaims(ownerName, claimsIssuer, supplied);
    if HasClaimType(supplied, NameIdentifierType) {
      var added := OwnerClaim(NameType, ownerName.value, claimsIssuer);
      NameIdentifierIsNotName();
      if |r| > |supplied| {
        assert r == supplied + [added];
        assert r[|supplied|].claimType == NameType;
        assert NameType != NameIdentifierType;
      }
    }
  }

  /** With a non-blank owner, an owner Name claim is the last claim of the
      result exactly when no supplied claim has type Name; it then comes after
      the NameIdentifier claim (if one was added). */
  lemma NameAddedIff(ownerName: NString, claimsIssuer: NString, supplied: seq<Claim>)
    requires !IsNullOrWhiteSpace(ownerName)
    ensures var r := DefaultedClaims(ownerName, claimsIssuer, supplied);
      (|r| > |supplied| && r[|r| - 1] == OwnerClaim(NameType, ownerName.value, claimsIssuer))
      <==> !HasClaimType(supplied, NameType)
  {
    var idClaim := OwnerClaim(NameIdentifierType, ownerName.value, claimsIssuer);
    var nameClaim := OwnerClaim(NameType, ownerName.value, claimsIssuer);
    NameIdentifierIsNotName();
    HasClaimTypeAppend(supplied, idClaim, NameType);
    var r := DefaultedClaims(ownerName, claimsIssuer, supplied);
    if HasClaimType(supplied, NameType) && |r| > |supplied| {
      assert r == supplied + [idClaim];
      assert r[|r| - 1].claimType == NameIdentifierType;
      assert NameType != NameIdentifierType;
    }
  }

  /** The principal built for a non-blank scheme has one identity, whose
      authentication type is the scheme name, so it is authenticated. */
  lemma BuiltPrincipalIsAuthenticated(ownerName: NString, schemeName: NString, claimsIssuer: NString,
                                      claims: Option<seq<Claim>>)
    requires !IsNullOrWhiteSpace(schemeName)
    ensures var r := ClaimsPrincipalOf(ownerName, schemeName, claimsIssuer, claims);
      r.Ok? && |r.value.identities| == 1 && r.value.identities[0].authenticationType == schemeName &&
      IsAuthenticated(Some(r.value)) &&
      AllClaims(r.value.identities) == DefaultedClaims(ownerName, claimsIssuer, Supplied(claims))
  {
  }

  /** Owner "Test" and no claims gives exactly the two owner claims,
      NameIdentifier first. */
  lemma OwnerWithoutClaimsGetsTwo(claimsIssuer: NString)
    ensures DefaultedClaims(Some("Test"), claimsIssuer, []) ==
      [OwnerClaim(NameIdentifierType, "Test", claimsIssuer), OwnerClaim(NameType, "Test", claimsIssuer)]
  {
    var idClaim := OwnerClaim(NameIdentifierType, "Test", claimsIssuer);
    NameIdentifierIsNotName();
    HasClaimTypeAppend([], idClaim, NameType);
    assert !IsNullOrWhiteSpace(Some("Test")) by { assert !IsWhiteSpace("Test"[0]); }
  }

  /** Owner "Test" with a supplied Name claim "Admin" and a Role claim gives
      one more claim than supplied, the NameIdentifier, and keeps the Name
      claim's value. */
  lemma SuppliedNameIsKept(claimsIssuer: NString, name: Claim, role: Claim)
    requires name.claimType == NameType && name.value == "Admin"
    requires role.claimType == "http://schemas.microsoft.com/ws/2008/06/identity/claims/role"
    ensures var r := DefaultedClaims(Some("Test"), claimsIssuer, [name, role]);
      r == [name, role, OwnerClaim(NameIdentifierType, "Test", claimsIssuer)] && |r| == 3
  {
    var supplied := [name, role];
    assert !IsNullOrWhiteSpace(Some("Test")) by { assert !IsWhiteSpace("Test"[0]); }
    assert !HasClaimType(supplied, NameIdentifierType) by {
      NameIdentifierIsNotName();
      DifferentLengthsDiffer(role.claimType, NameIdentifierType);
      SameIgnoreCaseIsEquivalence(NameType, NameIdentifierType, NameIdentifierType);
    }
    var withId := supplied + [OwnerClaim(NameIdentifierType, "Test", claimsIssuer)];
    assert withId[0] == name;
    assert HasClaimType(withId, NameType) by { SameIgnoreCaseIsEquivalence(NameType, NameType, NameType); }
  }
}
