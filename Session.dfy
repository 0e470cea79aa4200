/** The passport configuration of app.js: the principal a request carries,
    the donor-first resolution of a login, the `{id, model}` session
    reference with its serializer and deserializer, and the mapping from a
    role to its landing path. */
module Session {
  import opened Base
  import Donors
  import Orphanages

  /** A logged-in user: a document of the donor table or of the orphanage table. */
  datatype Principal = DonorUser(id: Id, donor: Donors.Donor) | OrgUser(id: Id, org: Orphanages.Org) {
    function Role(): string {
      match this
      case DonorUser(_, d) => d.role.Name()
      case OrgUser(_, o) => o.role
    }

    function Username(): string {
      match this
      case DonorUser(_, d) => d.username
      case OrgUser(_, o) => o.username
    }
  }

  // ---------------------------------------------------------------------
  // Credential resolution (the LocalStrategy callback)
  // ---------------------------------------------------------------------

  /** The abstract `user.authenticate(password)` of passport-local-mongoose. */
  type Verifier = (Credential, string) -> bool

  datatype AuthResult = Authenticated(user: Principal) | Failed(message: string)

  const INVALID_CREDENTIALS: string := "Invalid username or password"

  /** The donor with this username exists and accepts the password. */
  ghost predicate DonorAccepts(donors: map<Id, Donors.Donor>, username: string, password: string, verify: Verifier) {
    exists id :: id in donors && donors[id].username == username && verify(donors[id].credential, password)
  }

  /** The orphanage with this username exists and accepts the password. */
  ghost predicate OrgAccepts(orgs: map<Id, Orphanages.Org>, username: string, password: string, verify: Verifier) {
    exists id :: id in orgs && orgs[id].username == username && verify(orgs[id].credential, password)
  }

  /** p is what the strategy hands to passport: the donor when the donor table
      accepts the credential, the orphanage only when it does not. */
  ghost predicate ResolvesTo(donors: map<Id, Donors.Donor>, orgs: map<Id, Orphanages.Org>,
                             username: string, password: string, verify: Verifier, p: Principal)
  {
    match p
    case DonorUser(id, d) =>
      id in donors && donors[id] == d && d.username == username && verify(d.credential, password)
    case OrgUser(id, o) =>
      !DonorAccepts(donors, username, password, verify)
      && id in orgs && orgs[id] == o && o.username == username && verify(o.credential, password)
  }

  /** With usernames unique in each table, at most one principal resolves, and
      on a clash across the two tables the donor wins. */
  lemma ResolutionIsUnique(donors: map<Id, Donors.Donor>, orgs: map<Id, Orphanages.Org>,
                           username: string, password: string, verify: Verifier, p: Principal, q: Principal)
    requires Donors.Unique(donors) && Orphanages.Unique(orgs)
    requires ResolvesTo(donors, orgs, username, password, verify, p)
    requires ResolvesTo(donors, orgs, username, password, verify, q)
    ensures p == q
    ensures DonorAccepts(donors, username, password, verify) ==> p.DonorUser?
  {
    match p
    case DonorUser(i, _) =>
      if q.DonorUser? { assert !Donors.SharesUniqueField(donors[i], donors[q.id]) || i == q.id; }
    case OrgUser(i, _) =>
      if q.OrgUser? { assert !Orphanages.SharesUniqueField(orgs[i], orgs[q.id]) || i == q.id; }
  }

  // ---------------------------------------------------------------------
  // The session reference
  // ---------------------------------------------------------------------

  /** The payload `serializeUser` stores: `{id: user._id, model}`. */
  datatype SessionRef = SessionRef(id: Id, model: string)

  /** `serializeUser`: the model tag is chosen by the role, not by the table. */
  function Serialize(p: Principal): (r: SessionRef)
    ensures r.id == p.id
    ensures r.model == "Donor" || r.model == "Org"
    ensures r.model == "Donor" <==> p.Role() in {"donor", "admin"}
  {
    SessionRef(p.id, if p.Role() == "donor" || p.Role() == "admin" then "Donor" else "Org")
  }

  /** `deserializeUser`: `findById` in the table the tag names (any tag but
      "Donor" names the orphanage table); no user when the id is gone. */
  function Deserialize(donors: map<Id, Donors.Donor>, orgs: map<Id, Orphanages.Org>, r: SessionRef): (p: Option<Principal>)
    ensures p.Some? ==> p.value.id == r.id
    ensures r.model == "Donor" ==> (p.Some? <==> r.id in donors) && (p.Some? ==> p.value.DonorUser?)
    ensures r.model != "Donor" ==> (p.Some? <==> r.id in orgs) && (p.Some? ==> p.value.OrgUser?)
  {
    if r.model == "Donor" then
      if r.id in donors then Some(DonorUser(r.id, donors[r.id])) else None
    else
      if r.id in orgs then Some(OrgUser(r.id, orgs[r.id])) else None
  }

  /** p is stored, under its id, in the table its role points the codec at. */
  ghost predicate StoredForRole(donors: map<Id, Donors.Donor>, orgs: map<Id, Orphanages.Org>, p: Principal) {
    match p
    case DonorUser(id, d) => id in donors && donors[id] == d
    case OrgUser(id, o) => id in orgs && orgs[id] == o && o.role != "donor" && o.role != "admin"
  }

  /** Deserializing the reference of a principal stored for its role gives
      back that principal. */
  lemma RoundTrip(donors: map<Id, Donors.Donor>, orgs: map<Id, Orphanages.Org>, p: Principal)
    requires StoredForRole(donors, orgs, p)
    ensures Deserialize(donors, orgs, Serialize(p)) == Some(p)
  {
  }

  /** Once the principal's id is deleted from its table the reference yields no user. */
  lemma DeletedPrincipalYieldsNone(donors: map<Id, Donors.Donor>, orgs: map<Id, Orphanages.Org>, p: Principal)
    requires StoredForRole(donors, orgs, p)
    ensures p.DonorUser? ==> Deserialize(donors - {p.id}, orgs, Serialize(p)) == None
    ensures p.OrgUser? ==> Deserialize(donors, orgs - {p.id}, Serialize(p)) == None
  {
  }

  /** Every record stored in either table round-trips once every orphanage
      carries its default role, which is what the store keeps: signup sets
      it and no `$set` names it. */
  lemma StoredRecordsRoundTrip(donors: map<Id, Donors.Donor>, orgs: map<Id, Orphanages.Org>, p: Principal)
    requires Orphanages.RolesAreDefault(orgs)
    requires p.DonorUser? ==> p.id in donors && donors[p.id] == p.donor
    requires p.OrgUser? ==> p.id in orgs && orgs[p.id] == p.org
    ensures Deserialize(donors, orgs, Serialize(p)) == Some(p)
  {
    RoundTrip(donors, orgs, p);
  }

  /** The codec trusts the role, not the table: an orphanage whose role read
      "admin" would be looked up in the donor table and not be found there.
      No route writes an orphanage's role, so the store never holds one;
      the lemma shows why the default role matters to the round trip. */
  lemma RoleOutsideItsTableIsLost(donors: map<Id, Donors.Donor>, orgs: map<Id, Orphanages.Org>, id: Id, o: Orphanages.Org)
    requires id in orgs && orgs[id] == o && o.role == "admin" && id !in donors
    ensures Deserialize(donors, orgs, Serialize(OrgUser(id, o))) == None
  {
  }

  // ---------------------------------------------------------------------
  // Role landing
  // ---------------------------------------------------------------------

  const ADMIN_DASHBOARD: string := "/admin/dashboard"
  const ORPHANAGE_DASHBOARD: string := "/orphanage/dashboard"
  const DONOR_INDEX: string := "/donor/index"

  /** The redirect of the root route and of a successful login. */
  function Landing(role: string): (path: string)
    ensures path in {ADMIN_DASHBOARD, ORPHANAGE_DASHBOARD, DONOR_INDEX}
    ensures path == ADMIN_DASHBOARD <==> role == "admin"
    ensures path == ORPHANAGE_DASHBOARD <==> role == "orphanage"
  {
    if role == "admin" then ADMIN_DASHBOARD
    else if role == "orphanage" then ORPHANAGE_DASHBOARD
    else DONOR_INDEX
  }

  /** Where each kind of principal lands: an admin donor on the admin
      dashboard, any other donor on the donor index, an orphanage with its
      default role on the orphanage dashboard. */
  lemma LandingByKind(p: Principal)
    ensures p.DonorUser? ==> Landing(p.Role()) == if p.donor.role == Donors.AdminRole then ADMIN_DASHBOARD else DONOR_INDEX
    ensures p.OrgUser? && p.org.role == Orphanages.DEFAULT_ROLE ==> Landing(p.Role()) == ORPHANAGE_DASHBOARD
  {
  }
}
