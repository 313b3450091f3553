/**
 * What the monitor sees of the third-party LibreLinkUp client library: the credentials a
 * client is built from, the reading payload, and the outcomes of its `read` and `login` calls.
 * The library itself is not part of this model; its calls are answered by the environment.
 */
module LibreLink {
  import opened Wrappers

  /** The library version every client is constructed with (utils/glucoseMonitor.ts:50). */
  const LluVersion := "4.16.0"

  /** The `{email, password}` record the credential source returns per account. */
  datatype Credentials = Credentials(email: string, password: string)

  /** A client handle, as constructed by `new LibreLinkClient({...})`. */
  datatype Client = Client(email: string, password: string, lluVersion: string)

  function NewClient(c: Credentials): Client {
    Client(c.email, c.password, LluVersion)
  }

  /**
   * The fields of a reading payload that the badge looks at. `Value` and `value` are the two
   * spellings of the glucose value (absent = `undefined`); `isHigh` / `isLow` are the upstream
   * flags, taken by their truthiness.
   */
  datatype Reading = Reading(Value: Option<int>, value: Option<int>, isHigh: bool, isLow: bool)

  /** The outcome of one `client.read()`: a reading, or a thrown error with its message. */
  datatype ReadOutcome = Read(reading: Reading) | ReadFailed(message: string)

  /** The outcome of one `client.login()`. */
  datatype LoginOutcome = LoggedIn | LoginFailed(message: string)
}
