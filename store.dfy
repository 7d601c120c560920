/** The database behind the services: one table per entity and the IDENTITY
    counters that number new rows. Every service operation that saves or
    deletes rows is a method on a `Store` whose `modifies` clause names the
    tables it may write. */
module Persistence {
  import opened Model
  import opened PropertyImages
  import opened BookingRepository

  /** Each user sits under its own id, below the table's counter. */
  predicate UserRowsValid(users: map<int, User>, nextUserId: int) {
    forall id :: id in users ==> users[id].id == id && 0 < id < nextUserId
  }

  /** Each property sits under its own id, below the table's counter. */
  predicate PropertyRowsValid(properties: map<int, Property>, nextPropertyId: int) {
    forall id :: id in properties ==> properties[id].id == id && 0 < id < nextPropertyId
  }

  lemma RemoveKeepsPropertyRows(properties: map<int, Property>, nextPropertyId: int, id: int)
    requires PropertyRowsValid(properties, nextPropertyId)
    ensures PropertyRowsValid(properties - {id}, nextPropertyId)
  {
  }

  class Store {
    var users: map<int, User>
    /** The role table: role names in insertion order. */
    var roles: seq<string>
    var properties: map<int, Property>
    /** The image table in id order. */
    var images: seq<PropertyImage>
    var bookings: map<int, Booking>
    var nextUserId: int
    var nextPropertyId: int
    var nextImageId: int
    var nextBookingId: int

    /** Each row sits under its own id, ids are below the counter of their
        table, images and bookings name a stored property, and every booking
        checks out after it checks in. */
    ghost predicate Valid()
      reads this
    {
      && nextUserId >= 1 && nextPropertyId >= 1 && nextImageId >= 1 && nextBookingId >= 1
      && UserRowsValid(users, nextUserId)
      && PropertyRowsValid(properties, nextPropertyId)
      && BookingRowsValid(bookings, nextBookingId)
      && RowsValid(images, properties.Keys, nextImageId)
      && BookingsReferToProperties(bookings, properties)
    }

    /** An empty database. */
    constructor ()
      ensures Valid()
      ensures users == map[] && roles == [] && properties == map[]
      ensures images == [] && bookings == map[]
      ensures nextUserId == 1 && nextPropertyId == 1 && nextImageId == 1 && nextBookingId == 1
    {
      users := map[];
      roles := [];
      properties := map[];
      images := [];
      bookings := map[];
      nextUserId := 1;
      nextPropertyId := 1;
      nextImageId := 1;
      nextBookingId := 1;
    }
  }
}
