/** The query record the popup stores and the results page reads back. */
module Queries {
  import opened Common

  /**
   * A stored query. The popup builds only the first two shapes (with the user
   * present); storage can still hand the results page a record without a user,
   * or one whose `type` is missing or is neither tag.
   */
  datatype Query =
    | TicketStatus(project: string, status: string, inStatusFor: string)  // type 'ticketStatus'
    | Activity(user: Option<string>)                                       // type 'activity'
    | Unrecognized                                                         // any other type
}
