/** The subscription store: one document per phone number, each holding
    that number's price watches, kept in a document collection addressed by
    (item id, partition key = phone number). The collection is modelled as
    a sequence in storage order; queries without ORDER BY return matches in
    that order. */
module PhoneSubscriptionContainer {
  import opened Wrappers
  import opened Sequences
  import opened FlightTypes

  /** Item ids. The store generates one for a document that has none. */
  type RecordId = nat

  /** A stored `PhoneSubscription` with its item id
      (`CosmosEntity<PhoneSubscription>` without the system properties). */
  datatype StoredRecord = StoredRecord(
    id: RecordId,
    phoneNumber: string,
    subscriptions: seq<FlightPriceSubscription>)

  /** The error a point operation raises when no item has the key. */
  datatype StoreError = NotFound

  predicate HasKey(r: StoredRecord, id: RecordId, phoneNumber: string)
  {
    r.id == id && r.phoneNumber == phoneNumber
  }

  /** No two items share an (id, partition key) pair. */
  predicate KeysUnique(rs: seq<StoredRecord>)
  {
    forall i, j :: 0 <= i < j < |rs| ==> !HasKey(rs[j], rs[i].id, rs[i].phoneNumber)
  }

  /** Where the item with this key is stored, if anywhere. */
  function IndexOfKey(rs: seq<StoredRecord>, id: RecordId, phoneNumber: string): (r: Option<nat>)
    ensures r.Some? ==> r.value < |rs| && HasKey(rs[r.value], id, phoneNumber)
    ensures r.None? <==> forall j :: 0 <= j < |rs| ==> !HasKey(rs[j], id, phoneNumber)
  {
    FirstIndex(rs, (r: StoredRecord) => HasKey(r, id, phoneNumber))
  }

  /** The result of `SELECT * ... WHERE ps.phoneNumber = @phone`. */
  function WithPhone(rs: seq<StoredRecord>, phoneNumber: string): (r: seq<StoredRecord>)
    ensures forall i :: 0 <= i < |r| ==> r[i] in rs && r[i].phoneNumber == phoneNumber
    ensures forall i :: 0 <= i < |rs| && rs[i].phoneNumber == phoneNumber ==> rs[i] in r
  {
    Filter(rs, (r: StoredRecord) => r.phoneNumber == phoneNumber)
  }

  /** The first stored record with this phone number, in storage order. */
  function FindByPhone(rs: seq<StoredRecord>, phoneNumber: string): Option<StoredRecord>
  {
    Find(rs, (r: StoredRecord) => r.phoneNumber == phoneNumber)
  }

  /** The head of the phone-number query is the first record with that phone
      number, and the query is empty exactly when no record has it. */
  lemma QueryHeadIsFirstMatch(rs: seq<StoredRecord>, phoneNumber: string)
    ensures |WithPhone(rs, phoneNumber)| == 0 <==> FindByPhone(rs, phoneNumber).None?
    ensures |WithPhone(rs, phoneNumber)| > 0 ==>
              FindByPhone(rs, phoneNumber) == Some(WithPhone(rs, phoneNumber)[0])
  {
    var p := (r: StoredRecord) => r.phoneNumber == phoneNumber;
    var q := WithPhone(rs, phoneNumber);
    FilterSelects(rs, p);
    var idx := FilterIndices(rs, p);
    if |q| > 0 {
      var first := FirstIndex(rs, p);
      assert p(rs[idx[0]]);
      assert first.Some?;
      var m := first.value;
      assert m in idx;
      var k :| 0 <= k < |idx| && idx[k] == m;
      assert k == 0;
    }
  }

  /** The collection after `items.upsert(rec)`: the item with the same key
      is overwritten in place, or the record is added at the end. */
  function Upserted(rs: seq<StoredRecord>, rec: StoredRecord): seq<StoredRecord>
  {
    match IndexOfKey(rs, rec.id, rec.phoneNumber)
    case Some(i) => rs[i := rec]
    case None => rs + [rec]
  }

  /** The collection after `item(rec.id, rec.phoneNumber).replace(rec)`, or
      None when no item has that key (the call fails with NotFound). */
  function Replaced(rs: seq<StoredRecord>, rec: StoredRecord): Option<seq<StoredRecord>>
  {
    match IndexOfKey(rs, rec.id, rec.phoneNumber)
    case Some(i) => Some(rs[i := rec])
    case None => None
  }

  /** The collection after `item(id, phoneNumber).delete()`, or None when no
      item has that key (the call fails with NotFound). */
  function Deleted(rs: seq<StoredRecord>, id: RecordId, phoneNumber: string): Option<seq<StoredRecord>>
  {
    match IndexOfKey(rs, id, phoneNumber)
    case Some(i) => Some(rs[..i] + rs[i + 1..])
    case None => None
  }

  /** Upsert stores its argument and replaces, rather than duplicates, the
      item with the same key; every other item stays. */
  lemma UpsertReplacesOrAdds(rs: seq<StoredRecord>, rec: StoredRecord)
    requires KeysUnique(rs)
    ensures KeysUnique(Upserted(rs, rec))
    ensures rec in Upserted(rs, rec)
    ensures forall x :: x in Upserted(rs, rec) <==>
              x == rec || (x in rs && !HasKey(x, rec.id, rec.phoneNumber))
    ensures |Upserted(rs, rec)| == |rs| + (if IndexOfKey(rs, rec.id, rec.phoneNumber).Some? then 0 else 1)
  {
    var u := Upserted(rs, rec);
    match IndexOfKey(rs, rec.id, rec.phoneNumber)
    case None =>
    case Some(i) =>
      assert u[i] == rec;
      forall x | x in rs && !HasKey(x, rec.id, rec.phoneNumber)
        ensures x in u
      {
        var j :| 0 <= j < |rs| && rs[j] == x;
        assert u[j] == x;
      }
      forall x | x in u && x != rec
        ensures x in rs && !HasKey(x, rec.id, rec.phoneNumber)
      {
        var j :| 0 <= j < |u| && u[j] == x;
        assert j != i && rs[j] == x;
      }
  }

  /** Replace succeeds exactly when an item has the key; it then overwrites
      that whole item and leaves every other item where it was. */
  lemma ReplaceOverwritesOnly(rs: seq<StoredRecord>, rec: StoredRecord)
    requires KeysUnique(rs)
    ensures Replaced(rs, rec).Some? <==> exists j :: 0 <= j < |rs| && HasKey(rs[j], rec.id, rec.phoneNumber)
    ensures Replaced(rs, rec).Some? ==>
              && |Replaced(rs, rec).value| == |rs|
              && KeysUnique(Replaced(rs, rec).value)
              && forall j :: 0 <= j < |rs| ==>
                   Replaced(rs, rec).value[j] == if HasKey(rs[j], rec.id, rec.phoneNumber) then rec else rs[j]
  {
    match IndexOfKey(rs, rec.id, rec.phoneNumber)
    case None =>
    case Some(i) =>
      var r := rs[i := rec];
      forall j | 0 <= j < |rs| && j != i
        ensures !HasKey(rs[j], rec.id, rec.phoneNumber)
      {
        if i < j {
          assert !HasKey(rs[j], rs[i].id, rs[i].phoneNumber);
        } else {
          assert !HasKey(rs[i], rs[j].id, rs[j].phoneNumber);
        }
      }
  }

  /** Delete succeeds exactly when an item has the key; it then removes that
      item only and keeps the others in their order. */
  lemma DeleteRemovesOnly(rs: seq<StoredRecord>, id: RecordId, phoneNumber: string)
    requires KeysUnique(rs)
    ensures Deleted(rs, id, phoneNumber).Some? <==> exists j :: 0 <= j < |rs| && HasKey(rs[j], id, phoneNumber)
    ensures Deleted(rs, id, phoneNumber).Some? ==>
              && |Deleted(rs, id, phoneNumber).value| == |rs| - 1
              && KeysUnique(Deleted(rs, id, phoneNumber).value)
              && SubsequenceOf(Deleted(rs, id, phoneNumber).value, rs)
              && forall x :: x in Deleted(rs, id, phoneNumber).value <==> x in rs && !HasKey(x, id, phoneNumber)
  {
    match IndexOfKey(rs, id, phoneNumber)
    case None =>
    case Some(i) =>
      RemoveAtShape(rs, i, rs[..i] + rs[i + 1..]);
      DeleteKeepsOthers(rs, id, phoneNumber, i);
  }

  /** Removing the element at `i` keeps the others, in order. */
  lemma RemoveAtShape(rs: seq<StoredRecord>, i: nat, d: seq<StoredRecord>)
    requires i < |rs| && d == rs[..i] + rs[i + 1..]
    ensures |d| == |rs| - 1
    ensures forall k :: 0 <= k < i ==> d[k] == rs[k]
    ensures forall k :: i <= k < |d| ==> d[k] == rs[k + 1]
    ensures SubsequenceOf(d, rs)
  {
    forall k | 0 <= k < i
      ensures d[k] == rs[k]
    {
      assert d[k] == rs[..i][k];
    }
    forall k | i <= k < |d|
      ensures d[k] == rs[k + 1]
    {
      assert d[k] == rs[i + 1..][k - i];
    }
    var idx: seq<nat> := seq(|d|, (k: int) => if k < i then k else k + 1);
    assert IsEmbedding(idx, d, rs);
  }

  /** With unique keys, removing the one record with the key keeps the
      keys unique and keeps exactly the records without that key. */
  lemma DeleteKeepsOthers(rs: seq<StoredRecord>, id: RecordId, phoneNumber: string, i: nat)
    requires KeysUnique(rs)
    requires i < |rs| && HasKey(rs[i], id, phoneNumber)
    ensures KeysUnique(rs[..i] + rs[i + 1..])
    ensures forall x :: x in rs[..i] + rs[i + 1..] <==> x in rs && !HasKey(x, id, phoneNumber)
  {
    var d := rs[..i] + rs[i + 1..];
    RemovalKeepsKeysUnique(rs, i, d);
    forall j | 0 <= j < |rs| && j != i
      ensures !HasKey(rs[j], id, phoneNumber)
    {
      if i < j {
        assert !HasKey(rs[j], rs[i].id, rs[i].phoneNumber);
      } else {
        assert !HasKey(rs[i], rs[j].id, rs[j].phoneNumber);
      }
    }
    RemovalMembership(rs, i, d, id, phoneNumber);
  }

  lemma RemovalMembership(rs: seq<StoredRecord>, i: nat, d: seq<StoredRecord>, id: RecordId, phoneNumber: string)
    requires i < |rs| && d == rs[..i] + rs[i + 1..]
    requires HasKey(rs[i], id, phoneNumber)
    requires forall j :: 0 <= j < |rs| && j != i ==> !HasKey(rs[j], id, phoneNumber)
    ensures forall x :: x in d <==> x in rs && !HasKey(x, id, phoneNumber)
  {
    RemoveAtShape(rs, i, d);
    forall x | x in rs && !HasKey(x, id, phoneNumber)
      ensures x in d
    {
      var j :| 0 <= j < |rs| && rs[j] == x;
      assert d[if j < i then j else j - 1] == x;
    }
    forall x | x in d
      ensures x in rs && !HasKey(x, id, phoneNumber)
    {
      var k :| 0 <= k < |d| && d[k] == x;
      assert x == rs[if k < i then k else k + 1];
    }
  }

  lemma RemovalKeepsKeysUnique(rs: seq<StoredRecord>, i: nat, d: seq<StoredRecord>)
    requires KeysUnique(rs)
    requires i < |rs| && d == rs[..i] + rs[i + 1..]
    ensures KeysUnique(d)
  {
    RemoveAtShape(rs, i, d);
    forall a, b | 0 <= a < b < |d|
      ensures !HasKey(d[b], d[a].id, d[a].phoneNumber)
    {
      var a', b' := if a < i then a else a + 1, if b < i then b else b + 1;
      assert d[a] == rs[a'] && d[b] == rs[b'] && a' < b';
    }
  }

  /** The store. `nextId` is the next id the store hands out to a document
      that comes without one. */
  class PhoneSubscriptionsContainer {
    var records: seq<StoredRecord>
    var nextId: RecordId

    ghost predicate Valid()
      reads this
    {
      && KeysUnique(records)
      && forall i :: 0 <= i < |records| ==> records[i].id < nextId
    }

    constructor()
      ensures Valid() && records == [] && nextId == 0
    {
      records := [];
      nextId := 0;
    }

    /** `create(doc)`: an upsert. Without an id the store generates a fresh
        one, so the document is added as a new item. */
    method Create(doc: PhoneSubscription, id: Option<RecordId>) returns (created: StoredRecord)
      requires Valid()
      modifies this
      ensures Valid()
      ensures created == StoredRecord(if id.Some? then id.value else old(nextId),
                                      doc.phoneNumber, doc.subscriptions)
      ensures records == Upserted(old(records), created)
    {
      var newId := if id.Some? then id.value else nextId;
      created := StoredRecord(newId, doc.phoneNumber, doc.subscriptions);
      UpsertReplacesOrAdds(records, created);
      records := Upserted(records, created);
      if newId >= nextId {
        nextId := newId + 1;
      }
    }

    /** `getAll()`: every stored record; an empty store gives `[]`. */
    method GetAll() returns (all: seq<StoredRecord>)
      ensures all == records
    {
      all := records;
    }

    /** `getByPhoneNumber(phone)`: the head of the phone-number query, or
        null when the query is empty. */
    method GetByPhoneNumber(phoneNumber: string) returns (found: Option<StoredRecord>)
      ensures found.None? <==> forall i :: 0 <= i < |records| ==> records[i].phoneNumber != phoneNumber
      ensures found.Some? ==> exists i :: && 0 <= i < |records|
                                          && records[i] == found.value
                                          && records[i].phoneNumber == phoneNumber
                                          && forall j :: 0 <= j < i ==> records[j].phoneNumber != phoneNumber
      ensures found == FindByPhone(records, phoneNumber)
    {
      var queryResult := WithPhone(records, phoneNumber);
      QueryHeadIsFirstMatch(records, phoneNumber);
      if |queryResult| == 0 {
        found := None;
      } else {
        found := Some(queryResult[0]);
      }
    }

    /** `replace(rec)`: overwrites the item with rec's key, or fails with
        NotFound and changes nothing. */
    method Replace(rec: StoredRecord) returns (outcome: Outcome<StoreError>)
      requires Valid()
      modifies this
      ensures Valid() && nextId == old(nextId)
      ensures match Replaced(old(records), rec)
              case Some(updated) => outcome == Pass && records == updated
              case None => outcome == Fail(NotFound) && records == old(records)
    {
      ReplaceOverwritesOnly(records, rec);
      match Replaced(records, rec)
      case Some(updated) =>
        assert forall j :: 0 <= j < |updated| ==> updated[j] == rec || updated[j] == records[j];
        records := updated;
        outcome := Pass;
      case None =>
        outcome := Fail(NotFound);
    }

    /** `delete(rec)`: removes the item with rec's key, or fails with
        NotFound and changes nothing. */
    method Delete(rec: StoredRecord) returns (outcome: Outcome<StoreError>)
      requires Valid()
      modifies this
      ensures Valid() && nextId == old(nextId)
      ensures match Deleted(old(records), rec.id, rec.phoneNumber)
              case Some(remaining) => outcome == Pass && records == remaining
              case None => outcome == Fail(NotFound) && records == old(records)
    {
      DeleteRemovesOnly(records, rec.id, rec.phoneNumber);
      match Deleted(records, rec.id, rec.phoneNumber)
      case Some(remaining) =>
        records := remaining;
        outcome := Pass;
      case None =>
        outcome := Fail(NotFound);
    }
  }
}
