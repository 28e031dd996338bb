/**
 * The PostgreSQL connection is not modelled. Every query the core issues is
 * represented by its reply, passed in as a value or as a function of the
 * text the query is built from; every INSERT by the row it would send.
 */
module Datastore {

  /** The reply to one query: its result, or the exception the JDBC call threw. */
  datatype Reply<+T> = Ok(value: T) | DbError

  /** A row of the Passenger table. */
  datatype Passenger = Passenger(pid: int, passNum: string, fullName: string, bdate: string, country: string)

  /** A row of the Booking table. */
  datatype Booking = Booking(bookref: string, departure: string, flightNum: string, pid: string)
}
