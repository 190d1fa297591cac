/**
  The JetStream key-value bucket that holds the one-server-per-account guard.

  The bucket has one key and keeps one message of history, so the message it
  stores, unless that has expired, is the last one ever written. A bucket is
  therefore the log of all writes together with whether the last has expired;
  the sequence number of a write is its position in the log, counted from 1.
 */
module KvBucket {
  import opened Common

  const GUARD_TTL: Time := 30 * SECOND
  const GUARD_REFRESH: Time := 10 * SECOND
  const GUARD_OP_TIMEOUT: Time := 5 * SECOND

  // A server's instance id. The empty string is the id of an unreadable value.
  type Id = string

  datatype Act = Put | Delete

  /** One message of the bucket. `awaited` and `prompt` say how a create came about: whether
      its sender was still waiting for the reply when the broker handled it, and, for the create
      of a retake, whether nothing had been written since the sender read the last sequence.
      Both hold of every update and delete. */
  datatype Write = Write(who: Id, at: Time, act: Act, awaited: bool, prompt: bool)

  datatype Bucket = Bucket(log: seq<Write>, expired: bool) {

    // The last message is still stored: the holder's value, or a delete marker.
    predicate Stored() {
      |log| > 0 && !expired
    }

    // The key has a value.
    predicate Live() {
      Stored() && log[|log| - 1].act.Put?
    }

    function Owner(): Id
      requires Live()
    {
      log[|log| - 1].who
    }

    // The sequence of the key's stored message, 0 when there is none.
    function LastOnKey(): nat {
      if Stored() then |log| else 0
    }
  }

  datatype Request =
    | Create(who: Id)
    | Update(who: Id, rev: nat)
    | Remove(who: Id, rev: nat)
    | Get(who: Id)
    | LastSeq(who: Id)

  datatype Reply =
    | Done(rev: nat)
    | Refused
    | Found(rev: nat, owner: Id)
    | Missing
    | Last(seqno: nat)

  /** Whether the broker carries out a write: a create needs the key to have no value, and
      an update or delete needs the key's last message to be the one expected. */
  predicate Accepts(b: Bucket, r: Request) {
    match r
    case Create(_) => !b.Live()
    case Update(_, rev) => b.LastOnKey() == rev
    case Remove(_, rev) => b.LastOnKey() == rev
    case _ => false
  }

  function Answer(b: Bucket, r: Request): Reply {
    match r
    case Get(_) => if b.Live() then Found(|b.log|, b.Owner()) else Missing
    case LastSeq(_) => Last(|b.log|)
    case _ => if Accepts(b, r) then Done(|b.log| + 1) else Refused
  }

  function Commit(b: Bucket, r: Request, now: Time, awaited: bool, prompt: bool): Bucket {
    if Accepts(b, r) then
      Bucket(b.log + [Write(r.who, now, if r.Remove? then Delete else Put, awaited, prompt)], false)
    else
      b
  }
}
