/**
 * The part of the Clerk SDK the plugin talks to, as an abstract provider.
 * The remote service is a value of type Provider that each operation receives;
 * its three functions give the answer Clerk would send for each request.
 */
module ClerkApi {
  import opened Wrappers

  /** The client handle built from the two server-side credentials. */
  datatype Client = Client(secretKey: string, frontendApi: string)

  datatype EmailAddress = EmailAddress(emailAddress: string)

  /** The fields of a Clerk user that the plugin reads. A nil primary address is None. */
  datatype User = User(
    id: string,
    username: string,
    firstName: string,
    lastName: string,
    primaryEmailAddress: Option<EmailAddress>,
    imageUrl: string)

  /** A session resolved from a session token: the user it belongs to. */
  datatype Session = Session(userId: string)

  /** The paging parameters of a user-list request. */
  datatype ListParams = ListParams(limit: int, offset: int)

  /** The pagination metadata of a user-list response. */
  datatype ListMeta = ListMeta(totalCount: int)

  /** A user-list response: the users of the page and the metadata, which may be absent. */
  datatype UserPage = UserPage(users: seq<User>, meta: Option<ListMeta>)

  /** An error from the SDK or the network; its contents are opaque to the plugin. */
  datatype SdkError = SdkError(message: string)

  /** The three requests the plugin makes, each answering a result or an error. */
  datatype Provider = Provider(
    sessionByToken: (Client, string) -> Result<Session, SdkError>,
    userById: (Client, string) -> Result<User, SdkError>,
    list: (Client, ListParams) -> Result<UserPage, SdkError>)

  /** One outbound request, as recorded in the trace of calls made to the provider. */
  datatype Call =
    | GetSessionByToken(token: string)
    | GetUser(userId: string)
    | ListUsers(params: ListParams)
}
