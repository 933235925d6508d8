/**
 * A seminar document as the `seminars` collection stores it, and the `Seminar` model class's
 * constructor (app/models/Seminar.ts).
 *
 * The three membership lists may be absent from a stored document: the create route writes
 * `attendees` only. `price`, `date` and `time` are carried but never computed with.
 */
module SeminarModel {
  import opened Common

  datatype Seminar = Seminar(
    title: string,
    date: string,
    time: string,
    description: string,
    capacity: int,
    price: real,
    agentId: Id,
    attendees: Option<seq<Id>>,
    invitees: Option<seq<Id>>,
    confirmedAttendees: Option<seq<Id>>)

  /** The fields a seminar listing projects: title, date and time (the id is the listing's key). */
  datatype Summary = Summary(title: string, date: string, time: string)

  function Summarize(s: Seminar): Summary {
    Summary(s.title, s.date, s.time)
  }

  /** The number of attendees the capacity check sees; an absent list counts as empty. */
  function AttendeeCount(s: Seminar): nat {
    |s.attendees.GetOr([])|
  }

  /** The capacity bound `|attendees| <= capacity`. */
  predicate WithinCapacity(s: Seminar) {
    AttendeeCount(s) <= s.capacity
  }

  /** The argument object of the model class's constructor; optional members are `Option`s. */
  datatype SeminarData = SeminarData(
    id: Option<Id>,
    title: string,
    date: string,
    time: string,
    description: string,
    capacity: int,
    price: real,
    agentId: Id,
    attendees: Option<seq<Id>>,
    invitees: Option<seq<Id>>,
    confirmedAttendees: Option<seq<Id>>)

  /**
   * `new Seminar(data)`: a supplied (truthy) `_id` is used, otherwise the freshly generated one;
   * every membership list defaults to empty and a supplied list is kept as it is.
   */
  function NewSeminar(data: SeminarData, generated: Id): (r: (Id, Seminar))
    ensures r.0 == (if Truthy(data.id) then data.id.value else generated)
    ensures r.1.attendees.Some? && r.1.invitees.Some? && r.1.confirmedAttendees.Some?
    ensures data.attendees.None? ==> r.1.attendees.value == []
    ensures data.invitees.None? ==> r.1.invitees.value == []
    ensures data.confirmedAttendees.None? ==> r.1.confirmedAttendees.value == []
    ensures data.attendees.Some? ==> r.1.attendees == data.attendees
    ensures data.invitees.Some? ==> r.1.invitees == data.invitees
    ensures data.confirmedAttendees.Some? ==> r.1.confirmedAttendees == data.confirmedAttendees
    ensures r.1.title == data.title && r.1.date == data.date && r.1.time == data.time
    ensures r.1.description == data.description && r.1.capacity == data.capacity
    ensures r.1.price == data.price && r.1.agentId == data.agentId
  {
    var id := if Truthy(data.id) then data.id.value else generated;
    (id, Seminar(data.title, data.date, data.time, data.description, data.capacity, data.price,
                 data.agentId,
                 Some(data.attendees.GetOr([])),
                 Some(data.invitees.GetOr([])),
                 Some(data.confirmedAttendees.GetOr([]))))
  }
}
