/** The donor collection (models/donors.js): the record shape, the role enum
    and its default, the ten-digit phone pattern, the unique indexes, what
    `Donor.register` saves, and the `$set` document of a profile update. */
module Donors {
  import opened Base

  /** The role enum ['donor', 'admin']. */
  datatype Role = DonorRole | AdminRole {
    function Name(): string {
      match this
      case DonorRole => "donor"
      case AdminRole => "admin"
    }
  }

  /** The stored role for a submitted role value: an absent value takes the
      default, an enum member is kept, anything else fails validation. */
  function CastRole(submitted: Option<string>): (r: Option<Role>)
    ensures submitted.None? ==> r == Some(DonorRole)
    ensures submitted.Some? ==> (r.Some? <==> submitted.value in {"donor", "admin"})
    ensures submitted.Some? && r.Some? ==> r.value.Name() == submitted.value
  {
    match submitted
    case None => Some(DonorRole)
    case Some(s) =>
      if s == "donor" then Some(DonorRole)
      else if s == "admin" then Some(AdminRole)
      else None
  }

  datatype Donor = Donor(username: string, email: string, phone: string, role: Role, credential: Credential)

  predicate IsDigit(c: char) {
    '0' <= c <= '9'
  }

  /** The phone rule /^\d{10}$/: exactly ten characters, all decimal digits. */
  predicate IsTenDigitPhone(s: string) {
    |s| == 10 && forall i :: 0 <= i < |s| ==> IsDigit(s[i])
  }

  /** The regular expression read left to right: k digits, then the end of input. */
  predicate MatchesDigits(s: string, k: nat)
    decreases k
  {
    if k == 0 then s == [] else s != [] && IsDigit(s[0]) && MatchesDigits(s[1..], k - 1)
  }

  lemma {:induction false} MatchesDigitsIff(s: string, k: nat)
    ensures MatchesDigits(s, k) <==> |s| == k && forall i :: 0 <= i < |s| ==> IsDigit(s[i])
    decreases k
  {
    if k != 0 && s != [] {
      MatchesDigitsIff(s[1..], k - 1);
      if |s| == k && forall i :: 0 <= i < |s| ==> IsDigit(s[i]) {
        assert forall i :: 0 <= i < |s[1..]| ==> s[1..][i] == s[i + 1];
      }
      if MatchesDigits(s, k) {
        forall i | 0 <= i < |s| ensures IsDigit(s[i]) {
          if i > 0 { assert s[i] == s[1..][i - 1]; }
        }
      }
    }
  }

  /** The two readings of the phone pattern agree on every string. */
  lemma {:induction false} PhonePatternAgrees(s: string)
    ensures MatchesDigits(s, 10) <==> IsTenDigitPhone(s)
  {
    MatchesDigitsIff(s, 10);
  }

  /** The fields of the unique indexes: username (added by
      passport-local-mongoose), email and phone. */
  predicate SharesUniqueField(a: Donor, b: Donor) {
    a.username == b.username || a.email == b.email || a.phone == b.phone
  }

  /** No two stored donors share a uniquely indexed field. */
  ghost predicate Unique(t: map<Id, Donor>) {
    forall i, j :: i in t && j in t && i != j ==> !SharesUniqueField(t[i], t[j])
  }

  /** Writing d beside the records of t would violate a unique index. */
  predicate Clashes(t: map<Id, Donor>, d: Donor) {
    exists j :: j in t && SharesUniqueField(t[j], d)
  }

  predicate HasUsername(t: map<Id, Donor>, username: string) {
    exists j :: j in t && t[j].username == username
  }

  /** The signup duplicate query: one record matching the username AND the email. */
  predicate HasUsernameAndEmail(t: map<Id, Donor>, username: string, email: string) {
    exists j :: j in t && t[j].username == username && t[j].email == email
  }

  lemma InsertKeepsUnique(t: map<Id, Donor>, id: Id, d: Donor)
    requires Unique(t) && id !in t && !Clashes(t, d)
    ensures Unique(t[id := d])
  {
  }

  lemma ReplaceKeepsUnique(t: map<Id, Donor>, id: Id, d: Donor)
    requires Unique(t) && id in t && !Clashes(t - {id}, d)
    ensures Unique(t[id := d])
  {
    forall i, j | i in t && j in t && i != j
      ensures !SharesUniqueField(t[id := d][i], t[id := d][j])
    {
      if i == id { assert j in t - {id}; }
      else if j == id { assert i in t - {id}; }
    }
  }

  /** The body of a donor signup. */
  datatype SignupForm = SignupForm(username: string, email: string, password: string, phone: string, role: Option<string>)

  /** `new Donor({username, email, password, phone, role})`: None when the role
      fails the enum. The password is not a schema field; it becomes the credential. */
  function Draft(form: SignupForm, credential: Credential): Option<Donor> {
    match CastRole(form.role)
    case None => None
    case Some(role) => Some(Donor(form.username, form.email, form.phone, role, credential))
  }

  /** The checks `register` and `save` make of one record: a username and a
      password (passport-local-mongoose), then email required, phone required
      and matching the pattern. */
  predicate Saveable(d: Donor, password: string) {
    d.username != "" && password != "" && d.email != "" && IsTenDigitPhone(d.phone)
  }

  /** The record `Donor.register(newDonor, password)` stores in t, or None when
      it throws: a bad role, a missing username or password, an existing
      username, a schema violation, or a unique-index violation. */
  function Register(t: map<Id, Donor>, form: SignupForm, credential: Credential): (r: Option<Donor>)
    ensures r.Some? <==>
      Draft(form, credential).Some?
      && Saveable(Draft(form, credential).value, form.password)
      && forall j :: j in t ==> !SharesUniqueField(t[j], Draft(form, credential).value)
    ensures r.Some? ==> (r.value.username == form.username && r.value.email == form.email
                         && r.value.phone == form.phone && r.value.credential == credential)
    ensures r.Some? && form.role.None? ==> r.value.role == DonorRole
    ensures r.Some? && form.role.Some? ==> r.value.role.Name() == form.role.value
  {
    match Draft(form, credential)
    case None => None
    case Some(d) =>
      if Saveable(d, form.password) && !HasUsername(t, d.username) && !Clashes(t, d) then Some(d) else None
  }

  /** Registration never stores a record that shares the username, the email
      or the phone of an existing one, although the route's own duplicate
      query asks only for a record matching both username and email. */
  lemma RegisterRefusesAnySharedField(t: map<Id, Donor>, form: SignupForm, credential: Credential, j: Id)
    requires j in t
    requires t[j].username == form.username || t[j].email == form.email || t[j].phone == form.phone
    ensures Register(t, form, credential).None?
  {
  }

  /** The role of a self-registered donor is the one the client submits. */
  lemma SelfRegisteredAdmin(t: map<Id, Donor>, form: SignupForm, credential: Credential)
    requires form.role == Some("admin")
    requires Register(t, form, credential).Some?
    ensures Register(t, form, credential).value.role == AdminRole
  {
  }

  /** The `$set` document of a profile update: a JavaScript object in which
      each key is present or absent. */
  datatype Update = Update(username: Option<string>, email: Option<string>, phone: Option<string>)

  function UpdateDoc(username: string, email: string, phone: string): Update {
    Update(Spread(username), Spread(email), Spread(phone))
  }

  /** `findByIdAndUpdate(id, {$set: u})` on one record: each present key is
      written, no validator runs, and no key names the role or the credential. */
  function ApplySet(d: Donor, u: Update): (r: Donor)
    ensures r.role == d.role && r.credential == d.credential
  {
    Donor(Keep(u.username, d.username), Keep(u.email, d.email), Keep(u.phone, d.phone), d.role, d.credential)
  }

  /** A submitted field replaces the stored one exactly when it is non-empty;
      the role and the credential never change. */
  lemma UpdateFieldwise(d: Donor, username: string, email: string, phone: string)
    ensures ApplySet(d, UpdateDoc(username, email, phone))
         == Donor(if username != "" then username else d.username,
                  if email != "" then email else d.email,
                  if phone != "" then phone else d.phone,
                  d.role, d.credential)
  {
  }

  /** `findByIdAndUpdate(id, {$set: u})` on the table: None when the updated
      record would break a unique index (the update throws); an unknown id
      changes nothing; every other record is kept. */
  function UpdateById(t: map<Id, Donor>, id: Id, u: Update): (r: Option<map<Id, Donor>>)
    ensures r.None? <==> id in t && Clashes(t - {id}, ApplySet(t[id], u))
    ensures r.Some? ==> r.value.Keys == t.Keys
    ensures r.Some? && id in t ==> r.value[id] == ApplySet(t[id], u)
    ensures r.Some? ==> forall j :: j in t && j != id ==> r.value[j] == t[j]
  {
    if id !in t then Some(t)
    else
      var d := ApplySet(t[id], u);
      if Clashes(t - {id}, d) then None else Some(t[id := d])
  }

  lemma UpdateByIdKeepsUnique(t: map<Id, Donor>, id: Id, u: Update)
    requires Unique(t)
    requires UpdateById(t, id, u).Some?
    ensures Unique(UpdateById(t, id, u).value)
  {
    if id in t { ReplaceKeepsUnique(t, id, ApplySet(t[id], u)); }
  }

  /** The update path runs no validators: a phone that breaks the pattern is stored. */
  lemma UpdateSkipsPhonePattern(d: Donor)
    ensures ApplySet(d, UpdateDoc("", "", "123")).phone == "123"
    ensures !IsTenDigitPhone("123")
  {
  }
}
