/** The donation collection (models/donation.js): the record shape, its seven
    required fields, the status enum with its default, and the unconditional
    status overwrite the accept, reject and received routes perform. */
module Donations {
  import opened Base

  /** The status enum ['pending', 'accepted', 'rejected', 'received']. */
  datatype Status = Pending | Accepted | Rejected | Received {
    function Name(): string {
      match this
      case Pending => "pending"
      case Accepted => "accepted"
      case Rejected => "rejected"
      case Received => "received"
    }
  }

  /** The pickup date after the Date cast, in milliseconds since the epoch. */
  type Date = int

  datatype Donation = Donation(
    donorId: Id, orphanageId: Id, foodType: string, pickupAddress: string,
    pickupDate: Date, pickupTime: string, donorPhone: string, status: Status)

  /** What the create route passes to `new Donation`: the ObjectId and Date
      fields already cast (None when absent or not castable), the String
      fields as submitted ("" when absent). There is no status field. */
  datatype Form = Form(
    donorId: Option<Id>, orphanageId: Option<Id>, foodType: string, pickupAddress: string,
    pickupDate: Option<Date>, pickupTime: string, donorPhone: string)

  /** The donation `save()` stores, or None when a required field is missing.
      The references are not checked against the donor or orphanage table:
      `ref` only names the collection `populate` reads. */
  function Create(f: Form): (r: Option<Donation>)
    ensures r.Some? <==>
      f.donorId.Some? && f.orphanageId.Some? && f.foodType != "" && f.pickupAddress != ""
      && f.pickupDate.Some? && f.pickupTime != "" && f.donorPhone != ""
    ensures r.Some? ==> r.value.status == Pending && r.value.status.Name() == "pending"
    ensures r.Some? ==> (r.value.donorId == f.donorId.value && r.value.orphanageId == f.orphanageId.value
                         && r.value.foodType == f.foodType && r.value.pickupAddress == f.pickupAddress
                         && r.value.pickupDate == f.pickupDate.value && r.value.pickupTime == f.pickupTime
                         && r.value.donorPhone == f.donorPhone)
  {
    match (f.donorId, f.orphanageId, f.pickupDate)
    case (Some(donor), Some(org), Some(date)) =>
      if Required(f.foodType) && Required(f.pickupAddress) && Required(f.pickupTime) && Required(f.donorPhone)
      then Some(Donation(donor, org, f.foodType, f.pickupAddress, date, f.pickupTime, f.donorPhone, Pending))
      else None
    case _ => None
  }

  /** Mongoose's `required` on a String path: the value must be a non-empty string. */
  predicate Required(s: string) {
    s != ""
  }

  /** The accept, reject and received routes: one record's status, unconditionally. */
  function SetStatus(t: map<Id, Donation>, id: Id, s: Status): (r: map<Id, Donation>)
    ensures r.Keys == t.Keys
    ensures id in t ==> r[id] == t[id].(status := s)
    ensures forall j :: j in t && j != id ==> r[j] == t[j]
  {
    if id in t then t[id := t[id].(status := s)] else t
  }

  /** Setting a status is idempotent, and the last setter wins whatever the
      status was, so no status is terminal. */
  lemma SetStatusLastWins(t: map<Id, Donation>, id: Id, a: Status, b: Status)
    ensures SetStatus(SetStatus(t, id, a), id, b) == SetStatus(t, id, b)
  {
  }

  /** A received donation that is accepted again is accepted: the overwrite has no guard. */
  lemma ReceivedIsNotTerminal(t: map<Id, Donation>, id: Id)
    requires id in t && t[id].status == Received
    ensures SetStatus(t, id, Accepted)[id].status == Accepted
    ensures SetStatus(t, id, Rejected)[id].status == Rejected
  {
  }
}
