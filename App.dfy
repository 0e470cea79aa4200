/** The route handlers of app.js over an in-memory store: the donor, the
    orphanage and the donation tables, each a map from ObjectId to record.
    Every handler takes the exchange of its request; the guarded ones run
    `setCurrentUser` and `isLoggedIn` first. */
module App {
  import opened Base
  import Donors
  import Orphanages
  import Donations
  import opened Session
  import opened Middleware

  /** The handler queued one more notice and redirected. */
  ghost predicate Answered(ex: Exchange, before: seq<Flash>, notice: Flash, path: string)
    reads ex
  {
    ex.flashes == before + [notice] && ex.reply == Redirect(path)
  }

  /** `setCurrentUser, isLoggedIn`, the chain in front of every guarded route. */
  method Guard(ex: Exchange) returns (admitted: bool)
    modifies ex`currUser, ex`flashes, ex`reply
    ensures admitted == ex.user.Some?
    ensures ex.currUser == ex.user
    ensures admitted ==> ex.flashes == old(ex.flashes) && ex.reply == old(ex.reply)
    ensures !admitted ==> Answered(ex, old(ex.flashes), LOGIN_REQUIRED, LOGIN_PATH)
  {
    var next := ex.SetCurrentUser();
    admitted := ex.IsLoggedIn();
  }

  /** GET "/": past the guard, the landing path of the user's role, with no notice. */
  method Root(ex: Exchange)
    modifies ex`currUser, ex`flashes, ex`reply
    ensures ex.currUser == ex.user
    ensures ex.user.None? ==> Answered(ex, old(ex.flashes), LOGIN_REQUIRED, LOGIN_PATH)
    ensures ex.user.Some? ==> ex.flashes == old(ex.flashes) && ex.reply == Redirect(Landing(ex.user.value.Role()))
  {
    var admitted := Guard(ex);
    if admitted {
      ex.reply := Redirect(Landing(ex.user.value.Role()));
    }
  }

  /** GET "/logout": `req.logout` drops the user and the session reference. */
  method Logout(ex: Exchange)
    modifies ex`user, ex`session, ex`flashes, ex`reply
    ensures ex.user == None && ex.session == None
    ensures Answered(ex, old(ex.flashes), Flash(Success, "Logged out successfully"), LOGIN_PATH)
  {
    ex.user := None;
    ex.session := None;
    ex.flashes := ex.flashes + [Flash(Success, "Logged out successfully")];
    ex.reply := Redirect(LOGIN_PATH);
  }

  class Server {
    var donors: map<Id, Donors.Donor>
    var orgs: map<Id, Orphanages.Org>
    var donations: map<Id, Donations.Donation>
    /** The next ObjectId to hand out; ObjectIds are unique across collections. */
    var nextId: Id

    /** The unique indexes hold, every orphanage has its default role, and
        every stored id was handed out. */
    ghost predicate Valid()
      reads this
    {
      && Donors.Unique(donors)
      && Orphanages.Unique(orgs)
      && Orphanages.RolesAreDefault(orgs)
      && (forall id :: id in donors ==> id < nextId)
      && (forall id :: id in orgs ==> id < nextId)
      && (forall id :: id in donations ==> id < nextId)
    }

    constructor ()
      ensures Valid()
      ensures donors == map[] && orgs == map[] && donations == map[]
    {
      donors, orgs, donations := map[], map[], map[];
      nextId := 0;
    }

    // -------------------------------------------------------------------
    // Passport
    // -------------------------------------------------------------------

    /** `passport.session()` with `deserializeUser`, then the global
        `setCurrentUser`: the stored reference is resolved against the table
        its tag names; a reference whose record is gone yields no user and is
        dropped from the session. */
    method RestoreUser(ex: Exchange)
      modifies ex`user, ex`session, ex`currUser
      ensures old(ex.session).None? ==> ex.user == None && ex.session == None
      ensures old(ex.session).Some? ==> ex.user == Deserialize(donors, orgs, old(ex.session).value)
      ensures old(ex.session).Some? ==> ex.session == if ex.user.Some? then old(ex.session) else None
      ensures ex.currUser == ex.user
    {
      if ex.session.None? {
        ex.user := None;
      } else {
        ex.user := Deserialize(donors, orgs, ex.session.value);
        if ex.user.None? {
          ex.session := None;
        }
      }
      var next := ex.SetCurrentUser();
    }

    /** `Donor.findOne({username})`. */
    method FindDonorByUsername(username: string) returns (r: Option<Id>)
      requires Valid()
      ensures r.Some? ==> r.value in donors && donors[r.value].username == username
      ensures r.Some? ==> forall id :: id in donors && donors[id].username == username ==> id == r.value
      ensures r.None? <==> !Donors.HasUsername(donors, username)
    {
      if Donors.HasUsername(donors, username) {
        var id :| id in donors && donors[id].username == username;
        r := Some(id);
      } else {
        r := None;
      }
    }

    /** `Org.findOne({username})`. */
    method FindOrgByUsername(username: string) returns (r: Option<Id>)
      requires Valid()
      ensures r.Some? ==> r.value in orgs && orgs[r.value].username == username
      ensures r.Some? ==> forall id :: id in orgs && orgs[id].username == username ==> id == r.value
      ensures r.None? <==> !Orphanages.HasUsername(orgs, username)
    {
      if Orphanages.HasUsername(orgs, username) {
        var id :| id in orgs && orgs[id].username == username;
        r := Some(id);
      } else {
        r := None;
      }
    }

    /** The LocalStrategy callback: the donor table first, the orphanage
        table only when the donor is missing or refuses the password, and
        otherwise the uniform failure message. */
    method Authenticate(username: string, password: string, verify: Verifier) returns (r: AuthResult)
      requires Valid()
      ensures r.Authenticated? <==> DonorAccepts(donors, username, password, verify) || OrgAccepts(orgs, username, password, verify)
      ensures r.Authenticated? ==> ResolvesTo(donors, orgs, username, password, verify, r.user)
      ensures DonorAccepts(donors, username, password, verify) ==> r.Authenticated? && r.user.DonorUser?
      ensures r.Failed? ==> r.message == INVALID_CREDENTIALS
    {
      var donor := FindDonorByUsername(username);
      if donor.Some? {
        var d := donors[donor.value];
        if verify(d.credential, password) {
          return Authenticated(DonorUser(donor.value, d));
        }
      }
      assert !DonorAccepts(donors, username, password, verify);
      var org := FindOrgByUsername(username);
      if org.Some? {
        var o := orgs[org.value];
        if verify(o.credential, password) {
          return Authenticated(OrgUser(org.value, o));
        }
      }
      return Failed(INVALID_CREDENTIALS);
    }

    /** POST "/login": on failure back to the login page with no notice; on
        success `req.login` stores the serialized reference, a welcome notice
        is queued and the user lands on the path of their role. */
    method Login(ex: Exchange, username: string, password: string, verify: Verifier)
      requires Valid()
      modifies ex`user, ex`session, ex`flashes, ex`reply
      ensures !(DonorAccepts(donors, username, password, verify) || OrgAccepts(orgs, username, password, verify)) ==>
        ex.user == old(ex.user) && ex.session == old(ex.session)
        && ex.flashes == old(ex.flashes) && ex.reply == Redirect(LOGIN_PATH)
      ensures DonorAccepts(donors, username, password, verify) || OrgAccepts(orgs, username, password, verify) ==>
        ex.user.Some? && ResolvesTo(donors, orgs, username, password, verify, ex.user.value)
        && ex.session == Some(Serialize(ex.user.value))
        && Answered(ex, old(ex.flashes), Flash(Success, "Welcome back, " + ex.user.value.Username() + "!"),
                    Landing(ex.user.value.Role()))
    {
      var result := Authenticate(username, password, verify);
      match result
      case Failed(_) =>
        ex.reply := Redirect(LOGIN_PATH);
      case Authenticated(user) =>
        ex.user := Some(user);
        ex.session := Some(Serialize(user));
        ex.flashes := ex.flashes + [Flash(Success, "Welcome back, " + user.Username() + "!")];
        ex.reply := Redirect(Landing(user.Role()));
    }

    // -------------------------------------------------------------------
    // Signup
    // -------------------------------------------------------------------

    /** POST "/signup-donor": refused towards the login page when one donor
        has both the username and the email; otherwise `Donor.register`
        either throws (back to the signup page) or stores the donor under a
        fresh id and logs it in. */
    method SignupDonor(ex: Exchange, form: Donors.SignupForm, credential: Credential)
      requires Valid()
      modifies this`donors, this`nextId, ex`user, ex`session, ex`flashes, ex`reply
      ensures Valid()
      ensures Donors.HasUsernameAndEmail(old(donors), form.username, form.email) ==>
        donors == old(donors) && nextId == old(nextId)
        && ex.user == old(ex.user) && ex.session == old(ex.session)
        && Answered(ex, old(ex.flashes), Flash(Error, "User already exists with this email or username"), LOGIN_PATH)
      ensures !Donors.HasUsernameAndEmail(old(donors), form.username, form.email)
              && Donors.Register(old(donors), form, credential).None? ==>
        donors == old(donors) && nextId == old(nextId)
        && ex.user == old(ex.user) && ex.session == old(ex.session)
        && Answered(ex, old(ex.flashes), Flash(Error, "Error creating account. Please try again."), "/signup-donor")
      ensures !Donors.HasUsernameAndEmail(old(donors), form.username, form.email)
              && Donors.Register(old(donors), form, credential).Some? ==>
        var user := DonorUser(old(nextId), Donors.Register(old(donors), form, credential).value);
        donors == old(donors)[user.id := user.donor] && nextId == old(nextId) + 1
        && ex.user == Some(user) && ex.session == Some(Serialize(user))
        && Answered(ex, old(ex.flashes), Flash(Success, "Account created successfully! Welcome to Second Serve"), DONOR_INDEX)
    {
      if Donors.HasUsernameAndEmail(donors, form.username, form.email) {
        ex.flashes := ex.flashes + [Flash(Error, "User already exists with this email or username")];
        ex.reply := Redirect(LOGIN_PATH);
        return;
      }
      match Donors.Register(donors, form, credential)
      case None =>
        ex.flashes := ex.flashes + [Flash(Error, "Error creating account. Please try again.")];
        ex.reply := Redirect("/signup-donor");
      case Some(d) =>
        Donors.InsertKeepsUnique(donors, nextId, d);
        var user := DonorUser(nextId, d);
        donors := donors[nextId := d];
        nextId := nextId + 1;
        ex.user := Some(user);
        ex.session := Some(Serialize(user));
        ex.flashes := ex.flashes + [Flash(Success, "Account created successfully! Welcome to Second Serve")];
        ex.reply := Redirect(DONOR_INDEX);
    }

    /** POST "/signup-org": the same shape over the orphanage table. */
    method SignupOrg(ex: Exchange, form: Orphanages.SignupForm, credential: Credential)
      requires Valid()
      modifies this`orgs, this`nextId, ex`user, ex`session, ex`flashes, ex`reply
      ensures Valid()
      ensures Orphanages.HasUsernameAndEmail(old(orgs), form.username, form.email) ==>
        orgs == old(orgs) && nextId == old(nextId)
        && ex.user == old(ex.user) && ex.session == old(ex.session)
        && Answered(ex, old(ex.flashes), Flash(Error, "Orphanage already exists with this email or username"), LOGIN_PATH)
      ensures !Orphanages.HasUsernameAndEmail(old(orgs), form.username, form.email)
              && Orphanages.Register(old(orgs), form, credential).None? ==>
        orgs == old(orgs) && nextId == old(nextId)
        && ex.user == old(ex.user) && ex.session == old(ex.session)
        && Answered(ex, old(ex.flashes), Flash(Error, "Error creating orphanage account. Please try again."), "/signup-org")
      ensures !Orphanages.HasUsernameAndEmail(old(orgs), form.username, form.email)
              && Orphanages.Register(old(orgs), form, credential).Some? ==>
        var user := OrgUser(old(nextId), Orphanages.Register(old(orgs), form, credential).value);
        orgs == old(orgs)[user.id := user.org] && nextId == old(nextId) + 1
        && ex.user == Some(user) && ex.session == Some(Serialize(user))
        && Answered(ex, old(ex.flashes), Flash(Success, "Orphanage account created successfully!"), ORPHANAGE_DASHBOARD)
    {
      if Orphanages.HasUsernameAndEmail(orgs, form.username, form.email) {
        ex.flashes := ex.flashes + [Flash(Error, "Orphanage already exists with this email or username")];
        ex.reply := Redirect(LOGIN_PATH);
        return;
      }
      match Orphanages.Register(orgs, form, credential)
      case None =>
        ex.flashes := ex.flashes + [Flash(Error, "Error creating orphanage account. Please try again.")];
        ex.reply := Redirect("/signup-org");
      case Some(o) =>
        Orphanages.InsertKeepsUnique(orgs, nextId, o);
        var user := OrgUser(nextId, o);
        orgs := orgs[nextId := o];
        nextId := nextId + 1;
        ex.user := Some(user);
        ex.session := Some(Serialize(user));
        ex.flashes := ex.flashes + [Flash(Success, "Orphanage account created successfully!")];
        ex.reply := Redirect(ORPHANAGE_DASHBOARD);
    }

    // -------------------------------------------------------------------
    // Donor profile
    // -------------------------------------------------------------------

    /** POST "/donor/:id": the truthy fields of the body are `$set` on the
        donor with that id, whoever is logged in. A unique-index violation
        rejects the promise: nothing is stored, queued or sent. */
    method UpdateDonor(ex: Exchange, id: Id, username: string, email: string, phone: string)
      requires Valid()
      modifies this`donors, ex`currUser, ex`flashes, ex`reply
      ensures Valid()
      ensures ex.currUser == ex.user
      ensures ex.user.None? ==> donors == old(donors) && Answered(ex, old(ex.flashes), LOGIN_REQUIRED, LOGIN_PATH)
      ensures ex.user.Some? ==>
        var r := Donors.UpdateById(old(donors), id, Donors.UpdateDoc(username, email, phone));
        (r.None? ==> donors == old(donors) && ex.flashes == old(ex.flashes) && ex.reply == old(ex.reply))
        && (r.Some? ==> donors == r.value
                        && Answered(ex, old(ex.flashes), Flash(Success, "Profile updated successfully!"), DONOR_INDEX))
    {
      var admitted := Guard(ex);
      if !admitted {
        return;
      }
      var r := Donors.UpdateById(donors, id, Donors.UpdateDoc(username, email, phone));
      if r.Some? {
        Donors.UpdateByIdKeepsUnique(donors, id, Donors.UpdateDoc(username, email, phone));
        donors := r.value;
        ex.flashes := ex.flashes + [Flash(Success, "Profile updated successfully!")];
        ex.reply := Redirect(DONOR_INDEX);
      }
    }

    /** DELETE "/donor/delete/:id": removes the donor with that id, whoever is logged in. */
    method DeleteDonor(ex: Exchange, id: Id)
      requires Valid()
      modifies this`donors, ex`currUser, ex`flashes, ex`reply
      ensures Valid()
      ensures ex.currUser == ex.user
      ensures ex.user.None? ==> donors == old(donors) && Answered(ex, old(ex.flashes), LOGIN_REQUIRED, LOGIN_PATH)
      ensures ex.user.Some? ==>
        donors == old(donors) - {id}
        && Answered(ex, old(ex.flashes), Flash(Success, "Account deleted successfully"), DONOR_INDEX)
    {
      var admitted := Guard(ex);
      if admitted {
        donors := donors - {id};
        ex.flashes := ex.flashes + [Flash(Success, "Account deleted successfully")];
        ex.reply := Redirect(DONOR_INDEX);
      }
    }

    /** GET "/donor/delete": removes the logged-in user's id from the donor
        table; the session still holds its reference. */
    method DeleteOwnDonor(ex: Exchange)
      requires Valid()
      modifies this`donors, ex`currUser, ex`flashes, ex`reply
      ensures Valid()
      ensures ex.currUser == ex.user
      ensures ex.user.None? ==> donors == old(donors) && Answered(ex, old(ex.flashes), LOGIN_REQUIRED, LOGIN_PATH)
      ensures ex.user.Some? ==>
        donors == old(donors) - {ex.user.value.id}
        && Answered(ex, old(ex.flashes), Flash(Success, "Account deleted successfully"), LOGIN_PATH)
    {
      var admitted := Guard(ex);
      if admitted {
        donors := donors - {ex.user.value.id};
        ex.flashes := ex.flashes + [Flash(Success, "Account deleted successfully")];
        ex.reply := Redirect(LOGIN_PATH);
      }
    }

    // -------------------------------------------------------------------
    // Donations
    // -------------------------------------------------------------------

    /** POST "/:id/donation" (no guard): a donation that passes the schema is
        stored under a fresh id with status pending, whatever the tables hold
        for its donor and orphanage ids; otherwise a 400 answer. */
    method CreateDonation(ex: Exchange, form: Donations.Form)
      requires Valid()
      modifies this`donations, this`nextId, ex`flashes, ex`reply
      ensures Valid()
      ensures Donations.Create(form).None? ==>
        donations == old(donations) && nextId == old(nextId)
        && ex.flashes == old(ex.flashes) + [Flash(Error, "Error submitting donation request")]
        && ex.reply == Status(400)
      ensures Donations.Create(form).Some? ==>
        donations == old(donations)[old(nextId) := Donations.Create(form).value] && nextId == old(nextId) + 1
        && Answered(ex, old(ex.flashes), Flash(Success, "Donation request submitted successfully!"), DONOR_INDEX)
    {
      match Donations.Create(form)
      case None =>
        ex.flashes := ex.flashes + [Flash(Error, "Error submitting donation request")];
        ex.reply := Status(400);
      case Some(d) =>
        donations := donations[nextId := d];
        nextId := nextId + 1;
        ex.flashes := ex.flashes + [Flash(Success, "Donation request submitted successfully!")];
        ex.reply := Redirect(DONOR_INDEX);
    }

    /** The body the three donation routes share: past the guard, the
        donation's status is overwritten, with no check of its current status
        or of who the user is. */
    method SetDonationStatus(ex: Exchange, id: Id, s: Donations.Status, notice: Flash, path: string)
      requires Valid()
      modifies this`donations, ex`currUser, ex`flashes, ex`reply
      ensures Valid()
      ensures ex.currUser == ex.user
      ensures ex.user.None? ==> donations == old(donations) && Answered(ex, old(ex.flashes), LOGIN_REQUIRED, LOGIN_PATH)
      ensures ex.user.Some? ==> donations == Donations.SetStatus(old(donations), id, s) && Answered(ex, old(ex.flashes), notice, path)
    {
      var admitted := Guard(ex);
      if admitted {
        donations := Donations.SetStatus(donations, id, s);
        ex.flashes := ex.flashes + [notice];
        ex.reply := Redirect(path);
      }
    }

    /** GET "/donation/accept/:id". */
    method AcceptDonation(ex: Exchange, id: Id)
      requires Valid()
      modifies this`donations, ex`currUser, ex`flashes, ex`reply
      ensures Valid()
      ensures ex.currUser == ex.user
      ensures ex.user.None? ==> donations == old(donations) && Answered(ex, old(ex.flashes), LOGIN_REQUIRED, LOGIN_PATH)
      ensures ex.user.Some? ==>
        donations == Donations.SetStatus(old(donations), id, Donations.Accepted)
        && Answered(ex, old(ex.flashes), Flash(Success, "Donation accepted successfully"), "/orphanage/donations-request")
    {
      SetDonationStatus(ex, id, Donations.Accepted, Flash(Success, "Donation accepted successfully"), "/orphanage/donations-request");
    }

    /** GET "/donation/reject/:id". */
    method RejectDonation(ex: Exchange, id: Id)
      requires Valid()
      modifies this`donations, ex`currUser, ex`flashes, ex`reply
      ensures Valid()
      ensures ex.currUser == ex.user
      ensures ex.user.None? ==> donations == old(donations) && Answered(ex, old(ex.flashes), LOGIN_REQUIRED, LOGIN_PATH)
      ensures ex.user.Some? ==>
        donations == Donations.SetStatus(old(donations), id, Donations.Rejected)
        && Answered(ex, old(ex.flashes), Flash(Error, "Donation request rejected"), "/orphanage/donations-request")
    {
      SetDonationStatus(ex, id, Donations.Rejected, Flash(Error, "Donation request rejected"), "/orphanage/donations-request");
    }

    /** GET "/donation/received/:id". */
    method MarkReceived(ex: Exchange, id: Id)
      requires Valid()
      modifies this`donations, ex`currUser, ex`flashes, ex`reply
      ensures Valid()
      ensures ex.currUser == ex.user
      ensures ex.user.None? ==> donations == old(donations) && Answered(ex, old(ex.flashes), LOGIN_REQUIRED, LOGIN_PATH)
      ensures ex.user.Some? ==>
        donations == Donations.SetStatus(old(donations), id, Donations.Received)
        && Answered(ex, old(ex.flashes), Flash(Success, "Donation marked as received"), "/orphanage/pending-donation")
    {
      SetDonationStatus(ex, id, Donations.Received, Flash(Success, "Donation marked as received"), "/orphanage/pending-donation");
    }

    // -------------------------------------------------------------------
    // Orphanage profile and verification
    // -------------------------------------------------------------------

    /** The body the edit and the verification routes share: past the guard,
        an uncastable Number field or a unique-index violation rejects the
        promise (nothing stored, queued or sent); otherwise the document is
        `$set` on the orphanage with that id and the user goes to the
        orphanage dashboard. */
    method WriteOrg(ex: Exchange, id: Id, form: Orphanages.EditForm, verification: bool, notice: Flash)
      requires Valid()
      requires ex.user.Some?
      modifies this`orgs, ex`flashes, ex`reply
      ensures Valid()
      ensures Orphanages.CastFails(form) ==> orgs == old(orgs) && ex.flashes == old(ex.flashes) && ex.reply == old(ex.reply)
      ensures !Orphanages.CastFails(form) ==>
        var r := Orphanages.UpdateById(old(orgs), id, if verification then Orphanages.VerificationDoc(form) else Orphanages.EditDoc(form));
        (r.None? ==> orgs == old(orgs) && ex.flashes == old(ex.flashes) && ex.reply == old(ex.reply))
        && (r.Some? ==> orgs == r.value && Answered(ex, old(ex.flashes), notice, ORPHANAGE_DASHBOARD))
    {
      if Orphanages.CastFails(form) {
        return;
      }
      var doc := if verification then Orphanages.VerificationDoc(form) else Orphanages.EditDoc(form);
      var r := Orphanages.UpdateById(orgs, id, doc);
      if r.Some? {
        Orphanages.UpdateByIdKeepsInvariants(orgs, id, doc);
        orgs := r.value;
        ex.flashes := ex.flashes + [notice];
        ex.reply := Redirect(ORPHANAGE_DASHBOARD);
      }
    }

    /** POST "/orphanage/verification": the logged-in user's id gets the
        submitted fields and status pending. */
    method SubmitVerification(ex: Exchange, form: Orphanages.EditForm)
      requires Valid()
      modifies this`orgs, ex`currUser, ex`flashes, ex`reply
      ensures Valid()
      ensures ex.currUser == ex.user
      ensures ex.user.None? ==> orgs == old(orgs) && Answered(ex, old(ex.flashes), LOGIN_REQUIRED, LOGIN_PATH)
      ensures ex.user.Some? && Orphanages.CastFails(form) ==>
        orgs == old(orgs) && ex.flashes == old(ex.flashes) && ex.reply == old(ex.reply)
      ensures ex.user.Some? && !Orphanages.CastFails(form) ==>
        var r := Orphanages.UpdateById(old(orgs), ex.user.value.id, Orphanages.VerificationDoc(form));
        (r.None? ==> orgs == old(orgs) && ex.flashes == old(ex.flashes) && ex.reply == old(ex.reply))
        && (r.Some? ==> orgs == r.value
                        && Answered(ex, old(ex.flashes), Flash(Success, "Verification submitted! Your application is under review."), ORPHANAGE_DASHBOARD))
    {
      var admitted := Guard(ex);
      if admitted {
        WriteOrg(ex, ex.user.value.id, form, true, Flash(Success, "Verification submitted! Your application is under review."));
      }
    }

    /** POST "/orphanage/:id": the orphanage with that id gets the submitted
        fields, whoever is logged in; its status is not touched. */
    method EditOrg(ex: Exchange, id: Id, form: Orphanages.EditForm)
      requires Valid()
      modifies this`orgs, ex`currUser, ex`flashes, ex`reply
      ensures Valid()
      ensures ex.currUser == ex.user
      ensures ex.user.None? ==> orgs == old(orgs) && Answered(ex, old(ex.flashes), LOGIN_REQUIRED, LOGIN_PATH)
      ensures ex.user.Some? && Orphanages.CastFails(form) ==>
        orgs == old(orgs) && ex.flashes == old(ex.flashes) && ex.reply == old(ex.reply)
      ensures ex.user.Some? && !Orphanages.CastFails(form) ==>
        var r := Orphanages.UpdateById(old(orgs), id, Orphanages.EditDoc(form));
        (r.None? ==> orgs == old(orgs) && ex.flashes == old(ex.flashes) && ex.reply == old(ex.reply))
        && (r.Some? ==> orgs == r.value
                        && Answered(ex, old(ex.flashes), Flash(Success, "Orphanage profile updated successfully!"), ORPHANAGE_DASHBOARD))
    {
      var admitted := Guard(ex);
      if admitted {
        WriteOrg(ex, id, form, false, Flash(Success, "Orphanage profile updated successfully!"));
      }
    }

    /** GET "/orphanage/delete": removes the logged-in user's id from the
        orphanage table; the session still holds its reference. */
    method DeleteOwnOrg(ex: Exchange)
      requires Valid()
      modifies this`orgs, ex`currUser, ex`flashes, ex`reply
      ensures Valid()
      ensures ex.currUser == ex.user
      ensures ex.user.None? ==> orgs == old(orgs) && Answered(ex, old(ex.flashes), LOGIN_REQUIRED, LOGIN_PATH)
      ensures ex.user.Some? ==>
        orgs == old(orgs) - {ex.user.value.id}
        && Answered(ex, old(ex.flashes), Flash(Success, "Orphanage account deleted successfully"), LOGIN_PATH)
    {
      var admitted := Guard(ex);
      if admitted {
        orgs := orgs - {ex.user.value.id};
        ex.flashes := ex.flashes + [Flash(Success, "Orphanage account deleted successfully")];
        ex.reply := Redirect(LOGIN_PATH);
      }
    }

    // -------------------------------------------------------------------
    // Admin
    // -------------------------------------------------------------------

    /** The body the three admin routes share: past the guard, the
        orphanage's status is overwritten, whoever is logged in and whatever
        the status was. */
    method SetOrgStatus(ex: Exchange, id: Id, s: Orphanages.Status, notice: Flash, path: string)
      requires Valid()
      modifies this`orgs, ex`currUser, ex`flashes, ex`reply
      ensures Valid()
      ensures ex.currUser == ex.user
      ensures ex.user.None? ==> orgs == old(orgs) && Answered(ex, old(ex.flashes), LOGIN_REQUIRED, LOGIN_PATH)
      ensures ex.user.Some? ==> orgs == Orphanages.SetStatus(old(orgs), id, s) && Answered(ex, old(ex.flashes), notice, path)
    {
      var admitted := Guard(ex);
      if admitted {
        Orphanages.SetStatusKeepsInvariants(orgs, id, s);
        orgs := Orphanages.SetStatus(orgs, id, s);
        ex.flashes := ex.flashes + [notice];
        ex.reply := Redirect(path);
      }
    }

    /** GET "/admin/verify/:id". */
    method VerifyOrg(ex: Exchange, id: Id)
      requires Valid()
      modifies this`orgs, ex`currUser, ex`flashes, ex`reply
      ensures Valid()
      ensures ex.currUser == ex.user
      ensures ex.user.None? ==> orgs == old(orgs) && Answered(ex, old(ex.flashes), LOGIN_REQUIRED, LOGIN_PATH)
      ensures ex.user.Some? ==>
        orgs == Orphanages.SetStatus(old(orgs), id, Orphanages.Verified)
        && Answered(ex, old(ex.flashes), Flash(Success, "Orphanage verified successfully"), "/admin/pending-org")
    {
      SetOrgStatus(ex, id, Orphanages.Verified, Flash(Success, "Orphanage verified successfully"), "/admin/pending-org");
    }

    /** GET "/admin/reject/:id". */
    method RejectOrg(ex: Exchange, id: Id)
      requires Valid()
      modifies this`orgs, ex`currUser, ex`flashes, ex`reply
      ensures Valid()
      ensures ex.currUser == ex.user
      ensures ex.user.None? ==> orgs == old(orgs) && Answered(ex, old(ex.flashes), LOGIN_REQUIRED, LOGIN_PATH)
      ensures ex.user.Some? ==>
        orgs == Orphanages.SetStatus(old(orgs), id, Orphanages.Rejected)
        && Answered(ex, old(ex.flashes), Flash(Error, "Orphanage verification rejected"), "/admin/pending-org")
    {
      SetOrgStatus(ex, id, Orphanages.Rejected, Flash(Error, "Orphanage verification rejected"), "/admin/pending-org");
    }

    /** GET "/admin/reject1/:id": the same overwrite, answered towards the verified list. */
    method RejectVerifiedOrg(ex: Exchange, id: Id)
      requires Valid()
      modifies this`orgs, ex`currUser, ex`flashes, ex`reply
      ensures Valid()
      ensures ex.currUser == ex.user
      ensures ex.user.None? ==> orgs == old(orgs) && Answered(ex, old(ex.flashes), LOGIN_REQUIRED, LOGIN_PATH)
      ensures ex.user.Some? ==>
        orgs == Orphanages.SetStatus(old(orgs), id, Orphanages.Rejected)
        && Answered(ex, old(ex.flashes), Flash(Error, "Orphanage status changed to rejected"), "/admin/verified-org")
    {
      SetOrgStatus(ex, id, Orphanages.Rejected, Flash(Error, "Orphanage status changed to rejected"), "/admin/verified-org");
    }
  }
}
