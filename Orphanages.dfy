/** The orphanage collection (models/orphanages.js): the record shape and its
    defaults, the image setter, the status enum, the unique indexes, what
    `Org.register` saves, and the `$set` documents of a profile edit and a
    verification submission. */
module Orphanages {
  import opened Base

  /** The status enum ['incomplete', 'pending', 'verified', 'rejected']. */
  datatype Status = Incomplete | Pending | Verified | Rejected {
    function Name(): string {
      match this
      case Incomplete => "incomplete"
      case Pending => "pending"
      case Verified => "verified"
      case Rejected => "rejected"
    }
  }

  /** The image the setter stores in place of an empty string. */
  const PLACEHOLDER_IMAGE: string := "https://www.google.com/url?sa=i&url=https%3A%2F%2Fwww.justdial.com%2FDimapur%2FOrphanages-For-Children%2Fnct-10960119&psig=AOvVaw0-Y1frDQjVYhhSNCMnhuGl&ust=1757690864589000&source=images&cd=vfe&opi=89978449&ved=0CBUQjRxqFwoTCPjk5vuC0Y8DFQAAAAAdAAAAABAL"

  const DEFAULT_ROLE: string := "orphanage"
  const DEFAULT_LOCATION: string := "Ballari"

  /** The `image` setter: the empty string becomes the placeholder, every
      other value is kept, so an empty image is never stored. No route hands
      it the empty string: signup sends no image and the edits spread only a
      truthy one. */
  function SetImage(v: string): (r: string)
    ensures v == "" ==> r == PLACEHOLDER_IMAGE
    ensures v != "" ==> r == v
    ensures r != ""
  {
    if v == "" then PLACEHOLDER_IMAGE else v
  }

  /** Applying the setter twice stores what applying it once does. */
  lemma SetImageIdempotent(v: string)
    ensures SetImage(SetImage(v)) == SetImage(v)
  {
  }

  /** A Number-typed form field: empty (falsy, cast to no value), a string
      that casts to a number, or a non-empty string that does not cast. */
  datatype NumInput = Blank | Number(n: int) | NotANumber {
    predicate Truthy() {
      !Blank?
    }
  }

  datatype Org = Org(
    username: string, email: string, phone: int, credential: Credential,
    description: Option<string>, image: Option<string>, address: Option<string>,
    location: string, childrenCount: int, status: Status, role: string)

  /** The fields of the unique indexes: username (added by
      passport-local-mongoose) and email. */
  predicate SharesUniqueField(a: Org, b: Org) {
    a.username == b.username || a.email == b.email
  }

  /** No two stored orphanages share a uniquely indexed field. */
  ghost predicate Unique(t: map<Id, Org>) {
    forall i, j :: i in t && j in t && i != j ==> !SharesUniqueField(t[i], t[j])
  }

  /** Writing o beside the records of t would violate a unique index. */
  predicate Clashes(t: map<Id, Org>, o: Org) {
    exists j :: j in t && SharesUniqueField(t[j], o)
  }

  predicate HasUsername(t: map<Id, Org>, username: string) {
    exists j :: j in t && t[j].username == username
  }

  /** The signup duplicate query: one record matching the username AND the email. */
  predicate HasUsernameAndEmail(t: map<Id, Org>, username: string, email: string) {
    exists j :: j in t && t[j].username == username && t[j].email == email
  }

  /** Every stored orphanage carries the role its schema defaults to. */
  ghost predicate RolesAreDefault(t: map<Id, Org>) {
    forall i :: i in t ==> t[i].role == DEFAULT_ROLE
  }

  lemma InsertKeepsUnique(t: map<Id, Org>, id: Id, o: Org)
    requires Unique(t) && id !in t && !Clashes(t, o)
    ensures Unique(t[id := o])
  {
  }

  lemma ReplaceKeepsUnique(t: map<Id, Org>, id: Id, o: Org)
    requires Unique(t) && id in t && !Clashes(t - {id}, o)
    ensures Unique(t[id := o])
  {
    forall i, j | i in t && j in t && i != j
      ensures !SharesUniqueField(t[id := o][i], t[id := o][j])
    {
      if i == id { assert j in t - {id}; }
      else if j == id { assert i in t - {id}; }
    }
  }

  /** The body of an orphanage signup. */
  datatype SignupForm = SignupForm(username: string, email: string, password: string, phone: NumInput)

  /** `new Org({username, email, password, phone})` with the schema defaults;
      None when the required Number phone is empty or does not cast. */
  function Draft(form: SignupForm, credential: Credential): Option<Org> {
    match form.phone
    case Number(n) =>
      Some(Org(form.username, form.email, n, credential, None, None, None,
               DEFAULT_LOCATION, 0, Incomplete, DEFAULT_ROLE))
    case _ => None
  }

  /** The checks `register` and `save` make of one record: a username and a
      password (passport-local-mongoose), then email required and a
      children count of at least 0. */
  predicate Saveable(o: Org, password: string) {
    o.username != "" && password != "" && o.email != "" && o.childrenCount >= 0
  }

  /** The record `Org.register(newOrg, password)` stores in t, or None when it
      throws: a missing or uncastable phone, a missing username, password or
      email, an existing username, or a unique-index violation. */
  function Register(t: map<Id, Org>, form: SignupForm, credential: Credential): (r: Option<Org>)
    ensures r.Some? <==>
      form.phone.Number? && form.username != "" && form.password != "" && form.email != ""
      && forall j :: j in t ==> t[j].username != form.username && t[j].email != form.email
    ensures r.Some? ==> (r.value.username == form.username && r.value.email == form.email
                         && r.value.phone == form.phone.n && r.value.credential == credential)
    ensures r.Some? ==> (r.value.role == "orphanage" && r.value.location == "Ballari"
                         && r.value.childrenCount == 0 && r.value.status == Incomplete
                         && r.value.status.Name() == "incomplete")
    ensures r.Some? ==> r.value.image.None? && r.value.description.None? && r.value.address.None?
  {
    match Draft(form, credential)
    case None => None
    case Some(o) =>
      if Saveable(o, form.password) && !HasUsername(t, o.username) && !Clashes(t, o) then Some(o) else None
  }

  /** A `$set` document on an orphanage: a JavaScript object in which each key
      is present or absent. */
  datatype Update = Update(
    username: Option<string>, description: Option<string>, image: Option<string>,
    email: Option<string>, phone: Option<int>, address: Option<string>,
    childrenCount: Option<int>, status: Option<Status>)

  function KeepOptional<T>(v: Option<T>, current: Option<T>): Option<T> {
    if v.Some? then v else current
  }

  /** `findByIdAndUpdate(id, {$set: u})` on one record: each present key is
      written, the image through its setter; no validator runs, and no key
      names the role, the location or the credential. */
  function ApplySet(o: Org, u: Update): (r: Org)
    ensures r.role == o.role && r.location == o.location && r.credential == o.credential
    ensures u.status.None? ==> r.status == o.status
    ensures u.image.Some? ==> r.image == Some(SetImage(u.image.value))
  {
    Org(Keep(u.username, o.username), Keep(u.email, o.email), Keep(u.phone, o.phone), o.credential,
        KeepOptional(u.description, o.description),
        if u.image.Some? then Some(SetImage(u.image.value)) else o.image,
        KeepOptional(u.address, o.address),
        o.location, Keep(u.childrenCount, o.childrenCount), Keep(u.status, o.status), o.role)
  }

  /** The body of a profile edit or a verification submission. */
  datatype EditForm = EditForm(
    username: string, description: string, image: string, email: string,
    phone: NumInput, address: string, childrenCount: NumInput)

  /** A truthy Number field that does not cast makes the update throw. */
  predicate CastFails(f: EditForm) {
    f.phone.NotANumber? || f.childrenCount.NotANumber?
  }

  /** `v && {key: v}` for a Number field whose truthy value casts. */
  function SpreadNumber(v: NumInput): Option<int> {
    if v.Number? then Some(v.n) else None
  }

  /** The seven conditional spreads of the edit, for a form whose Number fields cast. */
  function EditDoc(f: EditForm): Update
    requires !CastFails(f)
  {
    Update(Spread(f.username), Spread(f.description), Spread(f.image), Spread(f.email),
           SpreadNumber(f.phone), Spread(f.address), SpreadNumber(f.childrenCount), None)
  }

  /** The verification document: `status: "pending"` beside the same spreads. */
  function VerificationDoc(f: EditForm): Update
    requires !CastFails(f)
  {
    EditDoc(f).(status := Some(Pending))
  }

  function PickText(v: string, current: string): string {
    if v != "" then v else current
  }

  function PickOptional(v: string, current: Option<string>): Option<string> {
    if v != "" then Some(v) else current
  }

  function PickNumber(v: NumInput, current: int): int {
    if v.Number? then v.n else current
  }

  /** Every submitted non-empty field replaces the stored one, every other
      field (status, role, location, credential included) is kept, and a
      non-empty image is stored as submitted: the placeholder never arises. */
  lemma EditFieldwise(o: Org, f: EditForm)
    requires !CastFails(f)
    ensures ApplySet(o, EditDoc(f))
         == o.(username := PickText(f.username, o.username),
               description := PickOptional(f.description, o.description),
               image := PickOptional(f.image, o.image),
               email := PickText(f.email, o.email),
               phone := PickNumber(f.phone, o.phone),
               address := PickOptional(f.address, o.address),
               childrenCount := PickNumber(f.childrenCount, o.childrenCount))
  {
  }

  /** A verification submission is the profile edit with the status forced to
      pending, whatever the status was before. */
  lemma VerificationIsEditThenPending(o: Org, f: EditForm)
    requires !CastFails(f)
    ensures ApplySet(o, VerificationDoc(f)) == ApplySet(o, EditDoc(f)).(status := Pending)
    ensures ApplySet(o, VerificationDoc(f)).status.Name() == "pending"
  {
  }

  /** `findByIdAndUpdate(id, {$set: u})` on the table: None when the updated
      record would break a unique index (the update throws); an unknown id
      changes nothing; every other record is kept. */
  function UpdateById(t: map<Id, Org>, id: Id, u: Update): (r: Option<map<Id, Org>>)
    ensures r.None? <==> id in t && Clashes(t - {id}, ApplySet(t[id], u))
    ensures r.Some? ==> r.value.Keys == t.Keys
    ensures r.Some? && id in t ==> r.value[id] == ApplySet(t[id], u)
    ensures r.Some? ==> forall j :: j in t && j != id ==> r.value[j] == t[j]
  {
    if id !in t then Some(t)
    else
      var o := ApplySet(t[id], u);
      if Clashes(t - {id}, o) then None else Some(t[id := o])
  }

  lemma UpdateByIdKeepsInvariants(t: map<Id, Org>, id: Id, u: Update)
    requires Unique(t) && RolesAreDefault(t)
    requires UpdateById(t, id, u).Some?
    ensures Unique(UpdateById(t, id, u).value) && RolesAreDefault(UpdateById(t, id, u).value)
  {
    if id in t { ReplaceKeepsUnique(t, id, ApplySet(t[id], u)); }
  }

  /** The update path runs no validators: a negative children count is stored. */
  lemma EditSkipsMinimum(o: Org)
    ensures ApplySet(o, EditDoc(EditForm("", "", "", "", Blank, "", Number(-1)))).childrenCount == -1
  {
  }

  /** The admin status setter: one record's status, unconditionally. */
  function SetStatus(t: map<Id, Org>, id: Id, s: Status): (r: map<Id, Org>)
    ensures r.Keys == t.Keys
    ensures id in t ==> r[id] == t[id].(status := s)
    ensures forall j :: j in t && j != id ==> r[j] == t[j]
  {
    if id in t then t[id := t[id].(status := s)] else t
  }

  /** Setting a status is idempotent, and the last setter wins whatever the
      status was: `verified` and `rejected` can follow each other in any order. */
  lemma SetStatusLastWins(t: map<Id, Org>, id: Id, a: Status, b: Status)
    ensures SetStatus(SetStatus(t, id, a), id, b) == SetStatus(t, id, b)
  {
  }

  lemma SetStatusKeepsInvariants(t: map<Id, Org>, id: Id, s: Status)
    requires Unique(t) && RolesAreDefault(t)
    ensures Unique(SetStatus(t, id, s)) && RolesAreDefault(SetStatus(t, id, s))
  {
  }
}
