/**
 * What the pages see of their collaborators: the identity provider's user, the answer of the
 * "logbook rows for today" query, and the one browser-storage entry the pages share.
 */
module Store {
  import opened Optional

  /** The signed-in user as the identity provider reports it. */
  datatype AuthUser = AuthUser(id: string, email: Option<string>)

  /** The outcome of the query for the user's logbook rows dated today. */
  datatype LogQuery = LogQueryFailed(message: string) | LogRows(count: nat)

  /** The browser storage entry `absensi_status`, shared by every page of the application. */
  class StatusStorage {
    var status: Option<string>

    constructor (initial: Option<string>)
      ensures status == initial
    {
      status := initial;
    }
  }
}
