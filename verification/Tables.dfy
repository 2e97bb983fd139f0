/**
  The tables of the relay's database, as values.  A table with a primary key is a map from
  that key; the messages table, whose key is the rowid `seq`, is the sequence of its rows in
  rowid order, and an account's statements are the sequence of its rows in (account, seq) order.
  Time is counted in nanoseconds; the timestamp columns hold whole seconds, which is what their
  text carries (module Rfc3339 relates the two).
  */
module Tables {
  import opened Results

  type Id = string
  newtype Byte = x: int | 0 <= x < 256
  type Bytes = seq<Byte>
  type Key = Bytes

  /** An instant or a duration, in nanoseconds. */
  type Nanos = int

  /** A timestamp column: an instant cut down to the second. */
  type Stamp = int

  const SECOND: Nanos := 1_000_000_000
  const KEY_SIZE: nat := 32

  function Seconds(t: Nanos): Stamp {
    t / SECOND
  }

  datatype Mode = Flat | Managed
  datatype Role = Admin | Member

  datatype Account = Account(quotaBytes: int, mode: Mode)
  datatype Invitation =
    Invitation(id: Id, account: Id, expires: Stamp, consumed: bool, revoked: bool, grants: Role)
  datatype Device =
    Device(account: Id, publicKey: Key, push: string, revoked: bool, quotaBytes: int, role: Role)
  datatype Queue =
    Queue(senderId: Id, owner: Id, recipientKey: Key, senderKey: Option<Key>, retired: bool, quotaBytes: int)
  datatype Message =
    Message(seqno: nat, id: Id, queue: Id, payload: Bytes, receivedAt: Stamp, expires: Stamp)
  datatype Statement = Statement(seqno: nat, blob: Bytes)

  type Accounts = map<Id, Account>
  type Invitations = map<Id, Invitation>
  type Devices = map<Id, Device>
  type Queues = map<Id, Queue>

  /** `senders` is the UNIQUE index on queues.sender_id; `lastSeq` the AUTOINCREMENT counter. */
  datatype Db = Db(
    accounts: Accounts,
    invitations: Invitations,
    devices: Devices,
    queues: Queues,
    senders: map<Id, Id>,
    messages: seq<Message>,
    lastSeq: nat,
    bundles: map<Id, Bytes>,
    statements: map<Id, seq<Statement>>)

  const EmptyDb := Db(map[], map[], map[], map[], map[], [], 0, map[], map[])

  /** The WHERE clauses the relay uses on the messages table, joins included. */
  datatype Where =
    | InQueue(queue: Id)
    | OwnedBy(device: Id)
    | InAccount(account: Id)
    | Expired(at: Stamp)
    | ExpiredIn(queue: Id, at: Stamp)
    | Named(queue: Id, ids: seq<Id>)

  /** The three levels at which stored bytes are summed and capped. */
  predicate IsLevel(w: Where) {
    w.InQueue? || w.OwnedBy? || w.InAccount?
  }

  predicate Selects(queues: Queues, devices: Devices, w: Where, m: Message) {
    match w
    case InQueue(q) => m.queue == q
    case OwnedBy(d) => m.queue in queues && queues[m.queue].owner == d
    case InAccount(a) =>
      && m.queue in queues
      && queues[m.queue].owner in devices
      && devices[queues[m.queue].owner].account == a
    case Expired(at) => m.expires <= at
    case ExpiredIn(q, at) => m.queue == q && m.expires <= at
    case Named(q, ids) => m.queue == q && m.id in ids
  }

  /** SELECT ... WHERE w ORDER BY seq. */
  function Selected(ms: seq<Message>, queues: Queues, devices: Devices, w: Where): seq<Message> {
    if ms == [] then []
    else
      var rest := Selected(ms[..|ms| - 1], queues, devices, w);
      if Selects(queues, devices, w, ms[|ms| - 1]) then rest + [ms[|ms| - 1]] else rest
  }

  /** What DELETE ... WHERE w leaves behind. */
  function Remaining(ms: seq<Message>, queues: Queues, devices: Devices, w: Where): seq<Message> {
    if ms == [] then []
    else
      var rest := Remaining(ms[..|ms| - 1], queues, devices, w);
      if Selects(queues, devices, w, ms[|ms| - 1]) then rest else rest + [ms[|ms| - 1]]
  }

  /** SELECT COALESCE(SUM(LENGTH(payload)), 0) ... WHERE w AND expires > at. */
  function LiveBytes(ms: seq<Message>, queues: Queues, devices: Devices, w: Where, at: Stamp): nat {
    if ms == [] then 0
    else
      var m := ms[|ms| - 1];
      var rest := LiveBytes(ms[..|ms| - 1], queues, devices, w, at);
      if Selects(queues, devices, w, m) && m.expires > at then rest + |m.payload| else rest
  }

  /** The live bytes a database holds at a level. */
  function Stored(db: Db, w: Where, at: Stamp): nat {
    LiveBytes(db.messages, db.queues, db.devices, w, at)
  }

  function Without(db: Db, w: Where): Db {
    db.(messages := Remaining(db.messages, db.queues, db.devices, w))
  }

  predicate IdTaken(ms: seq<Message>, id: Id) {
    exists i :: 0 <= i < |ms| && ms[i].id == id
  }

  /** What a drain hands out for a row: everything but its rowid. */
  datatype Delivery = Delivery(id: Id, queue: Id, payload: Bytes, receivedAt: Stamp, expires: Stamp)

  function Deliver(m: Message): Delivery {
    Delivery(m.id, m.queue, m.payload, m.receivedAt, m.expires)
  }

  function Deliveries(ms: seq<Message>): (ds: seq<Delivery>)
    ensures |ds| == |ms|
    ensures forall i :: 0 <= i < |ms| ==> ds[i] == Deliver(ms[i])
  {
    if ms == [] then [] else Deliveries(ms[..|ms| - 1]) + [Deliver(ms[|ms| - 1])]
  }
}
