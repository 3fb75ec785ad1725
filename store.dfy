/** The outcome store: repository/notification_repository.go over a Mongo
    collection, and the clock `time.Now` reads.

    The collection and the clock are foreign: `Collection` records every
    insert and an oracle decides each insert's outcome; `Clock` is monotone,
    each read advancing it by an oracle amount (possibly zero). */
module Store {
  import opened Wrappers
  import opened Events
  import opened Models

  /** A monotone clock. */
  class Clock {
    var now: Time
    var readCount: nat
    const tick: nat -> nat

    constructor (start: Time, tick: nat -> nat)
      ensures now == start && readCount == 0 && this.tick == tick
    {
      now := start;
      readCount := 0;
      this.tick := tick;
    }

    /** time.Now(). */
    method Now() returns (t: Time)
      modifies this
      ensures t == old(now) + tick(old(readCount)) && now == t && readCount == old(readCount) + 1
    {
      now := now + tick(readCount);
      readCount := readCount + 1;
      t := now;
    }
  }

  /** A Notification struct, which Create updates in place. */
  class Notification {
    var id: Option<ObjectId>
    var eventType: string
    var reference: string
    var userId: string
    var payload: Payload
    var channel: Channel
    var status: Status
    var error: string
    var createdAt: Time
    var updatedAt: Time

    function Value(): Record
      reads this
    {
      Record(id, eventType, reference, userId, payload, channel, status, error, createdAt, updatedAt)
    }

    /** A composite literal `&models.Notification{...}`: the fields not named
        keep their zero values. */
    constructor (eventType: string, reference: string, userId: string, payload: Payload,
                 channel: Channel, status: Status, error: string)
      ensures Value() == Record(None, eventType, reference, userId, payload, channel, status, error, ZeroTime, ZeroTime)
    {
      id := None;
      this.eventType := eventType;
      this.reference := reference;
      this.userId := userId;
      this.payload := payload;
      this.channel := channel;
      this.status := status;
      this.error := error;
      createdAt := ZeroTime;
      updatedAt := ZeroTime;
    }
  }

  /** The `notifications` collection. `docs` holds what was stored, each with
      the identifier the driver generated for it; `attempts` counts InsertOne
      calls; `fate` gives the outcome of the attempt with that index. */
  class Collection {
    var docs: seq<Record>
    var attempts: nat
    const fate: (nat, Record) -> Option<string>

    constructor (fate: (nat, Record) -> Option<string>)
      ensures docs == [] && attempts == 0 && this.fate == fate
    {
      docs := [];
      attempts := 0;
      this.fate := fate;
    }

    /** InsertOne: a failed insert stores nothing. The generated identifier
        goes into the stored document only, not into the caller's struct. */
    method InsertOne(n: Notification) returns (err: Option<string>)
      modifies this
      ensures attempts == old(attempts) + 1
      ensures err == fate(old(attempts), n.Value())
      ensures docs == old(docs) + if err.None? then [n.Value().(id := Some(old(attempts)))] else []
    {
      err := fate(attempts, n.Value());
      if err.None? {
        docs := docs + [n.Value().(id := Some(attempts))];
      }
      attempts := attempts + 1;
    }
  }

  /** What the repository changes: the collection and the clock. */
  datatype StoreState = StoreState(docs: seq<Record>, attempts: nat, now: Time, readCount: nat)

  /** The caller's record after Create's two clock reads. */
  function Stamp(s: StoreState, tick: nat -> nat, rec: Record): Record {
    rec.(createdAt := s.now + tick(s.readCount), updatedAt := s.now + tick(s.readCount) + tick(s.readCount + 1))
  }

  /** What Create does: the caller's record stamped by two clock reads, the new
      store state, and the insert's error. */
  function CreateEffect(s: StoreState, fate: (nat, Record) -> Option<string>, tick: nat -> nat, rec: Record)
    : (r: (StoreState, Record, Option<string>))
    ensures r.1 == Stamp(s, tick, rec)
    ensures r.1 == rec.(createdAt := r.1.createdAt, updatedAt := r.1.updatedAt)
    ensures r.1.updatedAt >= r.1.createdAt >= s.now
    ensures r.2 == fate(s.attempts, r.1)
    ensures r.0.attempts == s.attempts + 1 && r.0.readCount == s.readCount + 2 && r.0.now == r.1.updatedAt
    ensures r.0.docs == s.docs + if r.2.None? then [r.1.(id := Some(s.attempts))] else []
  {
    var created := s.now + tick(s.readCount);
    var updated := created + tick(s.readCount + 1);
    var stamped := rec.(createdAt := created, updatedAt := updated);
    var err := fate(s.attempts, stamped);
    (StoreState(s.docs + (if err.None? then [stamped.(id := Some(s.attempts))] else []), s.attempts + 1, updated, s.readCount + 2),
     stamped, err)
  }

  /** What the stored documents always satisfy: each carries a generated
      identifier below the attempt count, identifiers increase along the
      collection, and no document was updated before it was created. */
  ghost predicate Consistent(s: StoreState) {
    && (forall i | 0 <= i < |s.docs| :: s.docs[i].id.Some? && s.docs[i].id.value < s.attempts)
    && (forall i, j | 0 <= i < j < |s.docs| :: s.docs[i].id.Some? && s.docs[j].id.Some? && s.docs[i].id.value < s.docs[j].id.value)
    && (forall i | 0 <= i < |s.docs| :: s.docs[i].createdAt <= s.docs[i].updatedAt)
  }

  /** Create keeps the collection consistent, and never updates or removes a
      stored document: the old documents are a prefix of the new ones. */
  lemma CreateKeepsConsistent(s: StoreState, fate: (nat, Record) -> Option<string>, tick: nat -> nat, rec: Record)
    requires Consistent(s)
    ensures Consistent(CreateEffect(s, fate, tick, rec).0)
    ensures s.docs <= CreateEffect(s, fate, tick, rec).0.docs
  {
  }

  /** The two timestamps come from separate clock reads, so they can differ. */
  lemma StampsMayDiffer(s: StoreState, fate: (nat, Record) -> Option<string>, rec: Record)
    ensures var stamped := CreateEffect(s, fate, (i: nat) => 1, rec).1;
            stamped.updatedAt == stamped.createdAt + 1
  {
  }

  class Repository {
    const collection: Collection
    const clock: Clock

    constructor (collection: Collection, clock: Clock)
      ensures this.collection == collection && this.clock == clock
    {
      this.collection := collection;
      this.clock := clock;
    }

    function State(): StoreState
      reads collection, clock
    {
      StoreState(collection.docs, collection.attempts, clock.now, clock.readCount)
    }

    /** Create: stamps the caller's record in place, then inserts it. */
    method Create(n: Notification) returns (err: Option<string>)
      modifies n, collection, clock
      ensures (State(), n.Value(), err) == CreateEffect(old(State()), collection.fate, clock.tick, old(n.Value()))
    {
      n.createdAt := clock.Now();
      n.updatedAt := clock.Now();
      err := collection.InsertOne(n);
    }
  }
}
