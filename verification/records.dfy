/** The records the pages exchange with the REST backend. */
module Records {
  import opened Common

  /** A discussion thread. `createdAt` is the creation instant as an integer
      timestamp; `username` is the denormalised author name. */
  datatype Thread = Thread(
    id: string,
    title: string,
    content: string,
    username: string,
    userId: string,
    createdAt: int)

  /** A calendar event. Start and end are the stored ISO-like strings
      (`<date>T<time>`); the id is optional, as the delete handler accepts
      `string | undefined`. */
  datatype Event = Event(
    id: Option<string>,
    title: string,
    startTime: string,
    endTime: string,
    userId: Option<string>)
}
