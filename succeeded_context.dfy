/** ApiKeyAuthenticationSucceededContext: the context the
    OnAuthenticationSucceeded hook receives, holding the principal built from
    the provider's key. The hook may replace or reject the principal, add
    claims to its identity, or set a result. */
module SucceededContexts {
  import opened Common
  import opened Claims
  import opened ResultContexts

  /** What an OnAuthenticationSucceeded hook can do with its context. */
  datatype SucceededCall =
    | SucceededBase(call: ResultCall)
    | ReplacePrincipal(principal: Option<Principal>)
    | RejectPrincipal
    | AddClaim(claim: Option<Claim>)
    | AddClaims(claims: Option<seq<Claim>>)

  /** The principal with claims appended to its first identity. */
  function WithClaimsAdded(p: Principal, claims: seq<Claim>): (r: Principal)
    requires |p.identities| > 0
    ensures |r.identities| == |p.identities| && r.identities[1..] == p.identities[1..]
    ensures r.identities[0].authenticationType == p.identities[0].authenticationType
    ensures r.identities[0].claims == p.identities[0].claims + claims
  {
    Principal([p.identities[0].(claims := p.identities[0].claims + claims)] + p.identities[1..])
  }

  /** `(Principal?.Identity as ClaimsIdentity).AddClaims(claims)`: a null
      principal, or one without an identity, makes this a call on null. */
  function AddClaimsOn(st: ResultState, claims: seq<Claim>): (r: Outcome<ResultState>)
    ensures r.Throw? <==> !(st.principal.Some? && |st.principal.value.identities| > 0)
    ensures r.Ok? ==> (r.value.result == st.result && r.value.principal.Some? &&
                       r.value.principal.value == WithClaimsAdded(st.principal.value, claims))
  {
    if st.principal.None? || |st.principal.value.identities| == 0 then Throw(NullReferenceException())
    else Ok(st.(principal := Some(WithClaimsAdded(st.principal.value, claims))))
  }

  /** One call on the context. Only the ResultContext members set Result;
      ReplacePrincipal, AddClaim and AddClaims refuse a null argument. */
  function ApplySucceededCall(st: ResultState, c: SucceededCall): (r: Outcome<ResultState>)
    ensures !c.SucceededBase? && r.Ok? ==> r.value.result == st.result
    ensures c.ReplacePrincipal? ==>
      if c.principal.None? then r == Throw(ArgumentNullException("principal"))
      else r == Ok(ResultState(c.principal, st.result))
    ensures c.AddClaim? && c.claim.None? ==> r == Throw(ArgumentNullException("claim"))
    ensures c.AddClaims? && c.claims.None? ==> r == Throw(ArgumentNullException("claims"))
  {
    match c
    case SucceededBase(rc) => ApplyResultCall(st, rc)
    case ReplacePrincipal(p) =>
      if p.None? then Throw(ArgumentNullException("principal")) else Ok(st.(principal := p))
    case RejectPrincipal => Ok(st.(principal := None))
    case AddClaim(cl) =>
      if cl.None? then Throw(ArgumentNullException("claim")) else AddClaimsOn(st, [cl.value])
    case AddClaims(cs) =>
      if cs.None? then Throw(ArgumentNullException("claims")) else AddClaimsOn(st, cs.value)
  }

  /** An OnAuthenticationSucceeded hook's calls, in order, stopping at the
      first exception. */
  function RunSucceededCalls(st: ResultState, calls: seq<SucceededCall>): (r: Outcome<ResultState>)
    ensures r.Ok? && st.result.Some? ==> r.value.result.Some?
    ensures (exists i :: 0 <= i < |calls| && calls[i].SucceededBase? && calls[i].call.Raise?) ==> r.Throw?
    decreases |calls|
  {
    if calls == [] then Ok(st)
    else
      match ApplySucceededCall(st, calls[0])
      case Throw(e) => Throw(e)
      case Ok(next) => RunSucceededCalls(next, calls[1..])
  }

  /** A hook that uses only the context's own members (no Success, Fail or
      NoResult) leaves Result as it found it. */
  lemma {:induction false} OwnMembersKeepResult(st: ResultState, calls: seq<SucceededCall>)
    requires forall i :: 0 <= i < |calls| ==> !calls[i].SucceededBase?
    ensures RunSucceededCalls(st, calls).Ok? ==> RunSucceededCalls(st, calls).value.result == st.result
    decreases |calls|
  {
    if calls != [] {
      var next := ApplySucceededCall(st, calls[0]);
      if next.Ok? {
        OwnMembersKeepResult(next.value, calls[1..]);
      }
    }
  }

  /** AddClaim then AddClaims keeps every existing claim, in front, appends
      the new ones in call order, and leaves Result alone. */
  lemma AddClaimThenAddClaims(st: ResultState, c: Claim, cs: seq<Claim>)
    requires st.principal.Some? && |st.principal.value.identities| > 0
    ensures var r := RunSucceededCalls(st, [AddClaim(Some(c)), AddClaims(Some(cs))]);
      r.Ok? && r.value.result == st.result && r.value.principal.Some? &&
      |r.value.principal.value.identities| == |st.principal.value.identities| &&
      r.value.principal.value.identities[0].claims == st.principal.value.identities[0].claims + [c] + cs
  {
    var p := st.principal.value;
    var s1 := ResultState(Some(WithClaimsAdded(p, [c])), st.result);
    var s2 := ResultState(Some(WithClaimsAdded(WithClaimsAdded(p, [c]), cs)), st.result);
    var calls := [AddClaim(Some(c)), AddClaims(Some(cs))];
    assert AddClaimsOn(st, [c]) == Ok(s1);
    assert ApplySucceededCall(st, calls[0]) == Ok(s1);
    assert AddClaimsOn(s1, cs) == Ok(s2);
    assert ApplySucceededCall(s1, calls[1]) == Ok(s2);
    assert calls[1..][1..] == [];
    assert RunSucceededCalls(s1, calls[1..]) == Ok(s2);
  }

  class AuthenticationSucceededContext {
    const core: ResultContext

    constructor (principal: Option<Principal>)
      ensures fresh(core) && core.State() == ResultState(principal, None)
    {
      core := new ResultContext(principal);
    }

    method ReplacePrincipal(principal: Option<Principal>) returns (error: Option<Exception>)
      modifies core
      ensures Settled(core.State(), error) == ApplySucceededCall(old(core.State()), SucceededCall.ReplacePrincipal(principal))
      ensures principal.None? ==> error.Some? && core.State() == old(core.State())
    {
      if principal.None? {
        return Some(ArgumentNullException("principal"));
      }
      core.SetPrincipal(principal);
      return None;
    }

    method RejectPrincipal()
      modifies core
      ensures core.State() == ResultState(None, old(core.result))
    {
      core.SetPrincipal(None);
    }

    method AddClaim(claim: Option<Claim>) returns (error: Option<Exception>)
      modifies core
      ensures Settled(core.State(), error) == ApplySucceededCall(old(core.State()), SucceededCall.AddClaim(claim))
    {
      if claim.None? {
        return Some(ArgumentNullException("claim"));
      }
      error := AppendToIdentity([claim.value]);
    }

    method AddClaims(claims: Option<seq<Claim>>) returns (error: Option<Exception>)
      modifies core
      ensures Settled(core.State(), error) == ApplySucceededCall(old(core.State()), SucceededCall.AddClaims(claims))
    {
      if claims.None? {
        return Some(ArgumentNullException("claims"));
      }
      error := AppendToIdentity(claims.value);
    }

    /** Appends claims to the principal's identity, or throws when there is
        no identity to append to. */
    method AppendToIdentity(claims: seq<Claim>) returns (error: Option<Exception>)
      modifies core
      ensures Settled(core.State(), error) == AddClaimsOn(old(core.State()), claims)
    {
      if core.principal.None? || |core.principal.value.identities| == 0 {
        return Some(NullReferenceException());
      }
      core.SetPrincipal(Some(WithClaimsAdded(core.principal.value, claims)));
      return None;
    }

    method Apply(c: SucceededCall) returns (error: Option<Exception>)
      modifies core
      ensures Settled(core.State(), error) == ApplySucceededCall(old(core.State()), c)
    {
      error := None;
      match c
      case SucceededBase(rc) => error := core.Apply(rc);
      case ReplacePrincipal(p) => error := ReplacePrincipal(p);
      case RejectPrincipal => RejectPrincipal();
      case AddClaim(cl) => error := AddClaim(cl);
      case AddClaims(cs) => error := AddClaims(cs);
    }

    /** Runs an OnAuthenticationSucceeded hook's calls on this context. */
    method Run(calls: seq<SucceededCall>) returns (error: Option<Exception>)
      modifies core
      ensures Settled(core.State(), error) == RunSucceededCalls(old(core.State()), calls)
    {
      error := None;
      var i := 0;
      while i < |calls|
        invariant 0 <= i <= |calls|
        invariant error.None?
        invariant RunSucceededCalls(old(core.State()), calls) == RunSucceededCalls(core.State(), calls[i..])
      {
        assert calls[i..][0] == calls[i] && calls[i..][1..] == calls[i + 1..];
        error := Apply(calls[i]);
        if error.Some? {
          return;
        }
        i := i + 1;
      }
      assert calls[i..] == [];
    }
  }
}
