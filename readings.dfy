/**
 * The per-account readings record kept under the `readings` storage key
 * (utils/glucoseMonitor.ts:6-8) and the two read-modify-write updates made to it by
 * `saveReading` and `saveError` (utils/glucoseMonitor.ts:141-148, 195-205).
 */
module Readings {
  import opened Wrappers
  import opened LibreLink

  /**
   * One account's entry. `reading` is absent in an entry that only an error was ever saved to;
   * `error` is `null` (None) after a successful save. `timestamp` is milliseconds since the epoch.
   */
  datatype Record = Record(reading: Option<Reading>, timestamp: int, error: Option<string>)

  type Store = map<string, Record>

  /** `saveReading`'s new record: the reading, the time, and a cleared error; no other entry changes. */
  function WithReading(m: Store, accountId: string, reading: Reading, now: int): (r: Store)
    ensures r.Keys == m.Keys + {accountId}
    ensures r[accountId].reading == Some(reading) && r[accountId].error == None
    ensures r[accountId].timestamp == now
    ensures forall k :: k in m && k != accountId ==> r[k] == m[k]
  {
    m[accountId := Record(Some(reading), now, None)]
  }

  /**
   * `saveError`'s new record: the previous entry spread, with `error` and `timestamp`
   * overwritten. The previous reading, if any, survives; no other entry changes.
   */
  function WithError(m: Store, accountId: string, error: string, now: int): (r: Store)
    ensures r.Keys == m.Keys + {accountId}
    ensures r[accountId].reading == (if accountId in m then m[accountId].reading else None)
    ensures r[accountId].error == Some(error) && r[accountId].timestamp == now
    ensures forall k :: k in m && k != accountId ==> r[k] == m[k]
  {
    var prev := if accountId in m then m[accountId] else Record(None, now, None);
    m[accountId := prev.(error := Some(error), timestamp := now)]
  }

  /** An error saved after a reading keeps that reading and replaces only the error and the time. */
  lemma ErrorAfterReadingKeepsReading(m: Store, accountId: string, reading: Reading, t1: int, error: string, t2: int)
    ensures WithError(WithReading(m, accountId, reading, t1), accountId, error, t2)
      == m[accountId := Record(Some(reading), t2, Some(error))]
  {
  }

  /** A reading saved after an error clears the error: the last write wins. */
  lemma ReadingAfterErrorClearsError(m: Store, accountId: string, error: string, t1: int, reading: Reading, t2: int)
    ensures WithReading(WithError(m, accountId, error, t1), accountId, reading, t2)
      == WithReading(m, accountId, reading, t2)
  {
  }

  /** Saving the same error twice at one time is the same as saving it once. */
  lemma WithErrorIdempotent(m: Store, accountId: string, error: string, now: int)
    ensures WithError(WithError(m, accountId, error, now), accountId, error, now) == WithError(m, accountId, error, now)
  {
  }
}
