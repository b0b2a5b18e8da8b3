/** The identity and timestamp part every stored document embeds (`DocumentBase`),
    and the two methods that stamp it before a write. */
module Documents {

  /** Wall-clock instants as whole seconds; Go's zero `time.Time` is `ZeroTime`. */
  type Time = int

  const ZeroTime: Time := 0

  const SecondsPerMinute: int := 60

  /** Document ids; `NoId` stands for the empty ObjectId of a not yet stored document. */
  type PageId = nat

  const NoId: PageId := 0

  /** The value of a `DocumentBase`. */
  datatype Base = Base(id: PageId, created: Time, modified: Time)

  /** The effect of `SetInsertDefaults(t)`: both timestamps become `t`. */
  function InsertDefaults(b: Base, t: Time): (r: Base)
    ensures r.created == t && r.modified == t
    ensures r.id == b.id
  {
    b.(created := t, modified := t)
  }

  /** The effect of `SetUpdateDefaults(t)`: only the modification time moves. */
  function UpdateDefaults(b: Base, t: Time): (r: Base)
    ensures r.modified == t
    ensures r.created == b.created && r.id == b.id
  {
    b.(modified := t)
  }

  /** Stamping twice with the same instant is the same as stamping once. */
  lemma DefaultsIdempotent(b: Base, t: Time)
    ensures InsertDefaults(InsertDefaults(b, t), t) == InsertDefaults(b, t)
    ensures UpdateDefaults(UpdateDefaults(b, t), t) == UpdateDefaults(b, t)
  {
  }

  /** An insert at `t1` followed by an update at `t2` keeps the creation time of the insert. */
  lemma InsertThenUpdate(b: Base, t1: Time, t2: Time)
    ensures UpdateDefaults(InsertDefaults(b, t1), t2) == Base(b.id, t1, t2)
  {
  }

  /** A `DocumentBase` as the Go code holds it: a record whose fields the
      pointer-receiver methods assign in place. */
  class DocumentBase {
    var id: PageId
    var created: Time
    var modified: Time

    function Value(): Base
      reads this
    {
      Base(id, created, modified)
    }

    constructor (b: Base)
      ensures Value() == b
    {
      id, created, modified := b.id, b.created, b.modified;
    }

    method SetInsertDefaults(t: Time)
      modifies this
      ensures Value() == InsertDefaults(old(Value()), t)
    {
      created := t;
      modified := t;
    }

    method SetUpdateDefaults(t: Time)
      modifies this
      ensures Value() == UpdateDefaults(old(Value()), t)
    {
      modified := t;
    }
  }

  /** Both stamps in sequence on one object: creation time from the insert,
      modification time from the update, identity untouched. */
  method StampInsertThenUpdate(d: DocumentBase, t1: Time, t2: Time)
    modifies d
    ensures d.created == t1 && d.modified == t2 && d.id == old(d.id)
  {
    d.SetInsertDefaults(t1);
    d.SetUpdateDefaults(t2);
    InsertThenUpdate(old(d.Value()), t1, t2);
  }
}
