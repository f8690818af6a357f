/**
 * The company registry: a list of companies, each with a name, a founder and
 * a member list. Every name that reaches the registry goes through FixName
 * first; the functions below take names that are already normalised and the
 * store applies FixName on the way in.
 */
module Companies {
  import opened Wrappers
  import opened Tables

  datatype Company = Company(name: string, founder: string, members: seq<string>)

  /** Index of the first company called `name`, the one every lookup loop stops at. */
  function Find(cs: seq<Company>, name: string): (r: Option<nat>)
    ensures r.Some? ==> r.value < |cs| && cs[r.value].name == name
    ensures r.Some? ==> forall j :: 0 <= j < r.value ==> cs[j].name != name
    ensures r.None? <==> forall j :: 0 <= j < |cs| ==> cs[j].name != name
  {
    if cs == [] then None
    else if cs[0].name == name then Some(0)
    else match Find(cs[1..], name)
      case None => None
      case Some(i) => Some(i + 1)
  }

  /** get_company_data: the first company with that name, if any. */
  function CompanyData(cs: seq<Company>, name: string): Option<Company>
  {
    match Find(cs, name)
    case None => None
    case Some(i) => Some(cs[i])
  }

  /** is_company. */
  predicate IsCompany(cs: seq<Company>, name: string)
  {
    Find(cs, name).Some?
  }

  /** is_company_member: the user is listed in the first company with that name. */
  predicate IsCompanyMember(cs: seq<Company>, company: string, user: string)
  {
    match Find(cs, company)
    case None => false
    case Some(i) => user in cs[i].members
  }

  /** The registry's invariant: no two companies share a name, no member is listed twice. */
  ghost predicate WellFormed(cs: seq<Company>)
  {
    (forall i, j :: 0 <= i < j < |cs| ==> cs[i].name != cs[j].name) &&
    (forall i :: 0 <= i < |cs| ==> NoDup(cs[i].members))
  }

  /**
   * add_company: refused (False, nothing changes) when the name is taken,
   * otherwise the company is appended with its founder as sole member.
   */
  function AddCompany(cs: seq<Company>, name: string, founder: string): (seq<Company>, bool)
  {
    if IsCompany(cs, name) then (cs, false)
    else (cs + [Company(name, founder, [founder])], true)
  }

  /** What add_company does, both ways, and that the registry stays well formed. */
  lemma AddCompanySpec(cs: seq<Company>, name: string, founder: string)
    requires WellFormed(cs)
    ensures var (r, ok) := AddCompany(cs, name, founder);
      && (ok <==> forall j :: 0 <= j < |cs| ==> cs[j].name != name)
      && (!ok ==> r == cs)
      && (ok ==> r == cs + [Company(name, founder, [founder])])
      && WellFormed(r)
      && IsCompany(r, name)
  {
    var (r, ok) := AddCompany(cs, name, founder);
    assert NoDup([founder]) by {
      assert [founder][..0] == [];
    }
    if ok {
      assert r[|cs|].name == name;
    }
  }

  /** The registry after add_company_member, as a value, with its result flag. */
  function MemberAdded(cs: seq<Company>, company: string, user: string): (seq<Company>, bool)
  {
    match Find(cs, company)
    case None => (cs, false)
    case Some(i) =>
      if user in cs[i].members then (cs, false)
      else (cs[i := cs[i].(members := cs[i].members + [user])], true)
  }

  /**
   * add_company_member: scan for the first company with the name, append the
   * user to its members unless already listed, and stop.
   */
  method AddCompanyMember(cs: seq<Company>, company: string, user: string) returns (r: seq<Company>, updated: bool)
    ensures (r, updated) == MemberAdded(cs, company, user)
  {
    r := cs;
    updated := false;
    var i := 0;
    while i < |r|
      invariant 0 <= i <= |r| == |cs| && r == cs && !updated
      invariant forall j :: 0 <= j < i ==> cs[j].name != company
    {
      if r[i].name == company {
        if user !in r[i].members {
          r := r[i := r[i].(members := r[i].members + [user])];
          updated := true;
        }
        return;
      }
      i := i + 1;
    }
  }

  /**
   * add_company_member reports True exactly when the company exists and the
   * user was not yet a member; afterwards the user is a member, no other
   * company changed, and the registry stays well formed (members never repeat).
   */
  lemma MemberAddedSpec(cs: seq<Company>, company: string, user: string)
    requires WellFormed(cs)
    ensures var (r, ok) := MemberAdded(cs, company, user);
      && (ok <==> IsCompany(cs, company) && !IsCompanyMember(cs, company, user))
      && (!ok ==> r == cs)
      && |r| == |cs|
      && (forall j :: 0 <= j < |cs| ==> r[j].name == cs[j].name && r[j].founder == cs[j].founder)
      && (IsCompany(cs, company) ==> IsCompanyMember(r, company, user))
      && WellFormed(r)
  {
    if MemberAdded(cs, company, user).1 {
      MemberAppended(cs, company, user, Find(cs, company).value);
    }
  }

  /** Appending a new member to the first company of a name keeps the registry well formed and that company first. */
  lemma MemberAppended(cs: seq<Company>, company: string, user: string, i: nat)
    requires WellFormed(cs) && Find(cs, company) == Some(i) && user !in cs[i].members
    ensures var r := cs[i := cs[i].(members := cs[i].members + [user])];
      WellFormed(r) && Find(r, company) == Some(i) && user in r[i].members
  {
    var m := cs[i].members;
    var r := cs[i := cs[i].(members := m + [user])];
    assert (m + [user])[..|m|] == m;
    assert r[i].members == m + [user];
    assert Find(r, company) == Some(i);
  }

  /** get_companies_for_user: the companies listing the user, in registry order. */
  function CompaniesOf(cs: seq<Company>, user: string): seq<Company>
  {
    if cs == [] then []
    else (if user in cs[0].members then [cs[0]] else []) + CompaniesOf(cs[1..], user)
  }

  /** A company is listed for a user exactly when the user is one of its members. */
  lemma {:induction false} CompaniesOfSpec(cs: seq<Company>, user: string)
    ensures forall c :: c in CompaniesOf(cs, user) <==> c in cs && user in c.members
    ensures |CompaniesOf(cs, user)| <= |cs|
  {
    if cs != [] {
      CompaniesOfSpec(cs[1..], user);
      assert forall c :: c in cs <==> c == cs[0] || c in cs[1..];
    }
  }
}
