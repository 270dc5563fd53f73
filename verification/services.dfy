/** How the frontend's service calls end, as the pages see them. */
module Services {
  import opened Wrappers

  /** Done, or an error with the server's message when it sent one. */
  datatype Reply = Done | Refused(message: Option<string>)
}
