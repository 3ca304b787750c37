/**
 * `payloadUpsert`: find at most one document of a collection matching a
 * filter, update it by id when it has a truthy id, otherwise create a new
 * document; any store error is rethrown as one error naming the collection.
 *
 * The document store is a class over a map from ids to documents, with the
 * order in which `find` lists them. The filter (`where`) is a predicate on
 * documents. A store failure is an input: when `storeFails` holds, the one
 * store call the upsert makes throws and nothing is written.
 */
module Upsert {
  import opened Base

  datatype UpsertResult<D> = Updated(id: DocId, doc: D) | Created(id: DocId, doc: D) | Failed(message: string)

  /** The state of one collection as a value. */
  datatype Snapshot<D> = Snapshot(docs: map<DocId, D>, order: seq<DocId>, nextId: nat)

  function FailureMessage(collection: string): string
  {
    "Failed to upsert document in collection " + collection
  }

  /**
   * Every stored id is listed once in `order`, and ids handed out so far are
   * below `nextId`, which is truthy; so no stored id is falsy.
   */
  ghost predicate WellFormed<D>(s: Snapshot<D>)
  {
    && (forall id :: id in s.docs <==> id in s.order)
    && (forall i, j :: 0 <= i < j < |s.order| ==> s.order[i] != s.order[j])
    && (forall id :: id in s.docs ==> id < s.nextId)
    && s.nextId >= 1
    && 0 !in s.docs
  }

  predicate Matches<D>(s: Snapshot<D>, where: D -> bool, id: DocId)
  {
    id in s.docs && where(s.docs[id])
  }

  /** `find` with `limit: 1`: the position of the first listed match, if any. */
  function FirstMatch<D>(s: Snapshot<D>, where: D -> bool): (k: Option<nat>)
    ensures k.Some? ==> k.value < |s.order| && Matches(s, where, s.order[k.value])
    ensures k.Some? ==> forall j :: 0 <= j < k.value ==> !Matches(s, where, s.order[j])
    ensures k.None? ==> forall j :: 0 <= j < |s.order| ==> !Matches(s, where, s.order[j])
  {
    Find(s.order, id => Matches(s, where, id))
  }

  /** The id the upsert would update, if the first match has a truthy id. */
  function UpdateTarget<D>(s: Snapshot<D>, where: D -> bool): Option<DocId>
  {
    var k := FirstMatch(s, where);
    if k.Some? && TruthyId(s.order[k.value]) then Some(s.order[k.value]) else None
  }

  /** The upsert as a step on the collection's state, with its result. */
  function UpsertStep<D>(s: Snapshot<D>, where: D -> bool, data: D, storeFails: bool, collection: string)
    : (Snapshot<D>, UpsertResult<D>)
  {
    if storeFails then (s, Failed(FailureMessage(collection)))
    else
      match UpdateTarget(s, where)
      case Some(id) => (s.(docs := s.docs[id := data]), Updated(id, data))
      case None =>
        (Snapshot(s.docs[s.nextId := data], s.order + [s.nextId], s.nextId + 1), Created(s.nextId, data))
  }

  class DocumentStore<D> {
    const collection: string
    var docs: map<DocId, D>
    var order: seq<DocId>
    var nextId: nat

    function Model(): Snapshot<D>
      reads this
    {
      Snapshot(docs, order, nextId)
    }

    ghost predicate Valid()
      reads this
    {
      WellFormed(Model())
    }

    constructor (collection: string)
      ensures Valid() && this.collection == collection
      ensures docs == map[] && order == []
    {
      this.collection := collection;
      docs := map[];
      order := [];
      nextId := 1;
    }

    /** `payloadUpsert` on this collection. */
    method Upsert(where: D -> bool, data: D, storeFails: bool) returns (result: UpsertResult<D>)
      requires Valid()
      modifies this
      ensures Valid()
      ensures (Model(), result) == UpsertStep(old(Model()), where, data, storeFails, collection)
    {
      ghost var before := Model();
      if storeFails {
        return Failed(FailureMessage(collection));
      }
      var found := FirstMatch(Model(), where);
      var existingId: DocId := if found.Some? then order[found.value] else 0;
      if TruthyId(existingId) {
        docs := docs[existingId := data];
        return Updated(existingId, data);
      }
      var id := nextId;
      docs := docs[id := data];
      order := order + [id];
      nextId := nextId + 1;
      result := Created(id, data);
      UpsertKeepsWellFormed(before, where, data, storeFails, collection);
    }
  }

  lemma UpsertKeepsWellFormed<D>(s: Snapshot<D>, where: D -> bool, data: D, storeFails: bool, collection: string)
    requires WellFormed(s)
    ensures WellFormed(UpsertStep(s, where, data, storeFails, collection).0)
  {
    var s' := UpsertStep(s, where, data, storeFails, collection).0;
    if !storeFails && UpdateTarget(s, where).None? {
      assert s.nextId !in s.docs;
      assert s.nextId !in s.order;
      forall i, j | 0 <= i < j < |s'.order| ensures s'.order[i] != s'.order[j] {
        if j == |s.order| {
          assert s'.order[i] == s.order[i];
        }
      }
    }
  }

  /**
   * When the first listed match has a truthy id, exactly that document is
   * replaced by `data` and returned; no document is created and no other
   * document changes.
   */
  lemma UpsertUpdatesFirstMatch<D>(s: Snapshot<D>, where: D -> bool, data: D, collection: string, k: nat)
    requires WellFormed(s)
    requires k < |s.order| && Matches(s, where, s.order[k]) && TruthyId(s.order[k])
    requires forall j :: 0 <= j < k ==> !Matches(s, where, s.order[j])
    ensures var (s', result) := UpsertStep(s, where, data, false, collection);
      && result == Updated(s.order[k], data)
      && s'.docs.Keys == s.docs.Keys && s'.order == s.order && s'.nextId == s.nextId
      && s'.docs[s.order[k]] == data
      && (forall id :: id in s.docs && id != s.order[k] ==> s'.docs[id] == s.docs[id])
  {
    var m := FirstMatch(s, where);
    assert m == Some(k);
  }

  /**
   * With no match, or a first match whose id is falsy, exactly one document
   * holding `data` is created under a fresh id and returned; every existing
   * document is left as it was.
   */
  lemma UpsertCreatesWithoutTruthyMatch<D>(s: Snapshot<D>, where: D -> bool, data: D, collection: string)
    requires WellFormed(s)
    requires UpdateTarget(s, where).None?
    ensures var (s', result) := UpsertStep(s, where, data, false, collection);
      && result == Created(s.nextId, data)
      && s.nextId !in s.docs && TruthyId(s.nextId)
      && s'.docs.Keys == s.docs.Keys + {s.nextId}
      && s'.docs[s.nextId] == data
      && (forall id :: id in s.docs ==> s'.docs[id] == s.docs[id])
  {
    assert s.nextId !in s.docs;
  }

  /**
   * The number of documents grows by one exactly when the upsert creates,
   * which happens exactly when the store works and there is no first match
   * with a truthy id; otherwise it stays the same.
   */
  lemma UpsertCount<D>(s: Snapshot<D>, where: D -> bool, data: D, storeFails: bool, collection: string)
    requires WellFormed(s)
    ensures var (s', result) := UpsertStep(s, where, data, storeFails, collection);
      && (result.Created? <==> !storeFails && UpdateTarget(s, where).None?)
      && |s'.docs| == |s.docs| + (if result.Created? then 1 else 0)
  {
    var (s', result) := UpsertStep(s, where, data, storeFails, collection);
    if result.Created? {
      assert s.nextId !in s.docs;
      assert s'.docs.Keys == s.docs.Keys + {s.nextId};
    } else if !storeFails {
      assert s'.docs.Keys == s.docs.Keys;
    }
  }

  /**
   * In a well-formed store a working upsert creates exactly when no stored
   * document matches the filter, and then the count grows by one.
   */
  lemma UpsertCreatesIffNoMatch<D>(s: Snapshot<D>, where: D -> bool, data: D, collection: string)
    requires WellFormed(s)
    ensures var (s', result) := UpsertStep(s, where, data, false, collection);
      && (result.Created? <==> forall j :: 0 <= j < |s.order| ==> !Matches(s, where, s.order[j]))
      && |s'.docs| == |s.docs| + (if result.Created? then 1 else 0)
  {
    UpsertCount(s, where, data, false, collection);
    if k :| 0 <= k < |s.order| && Matches(s, where, s.order[k]) {
      MatchMeansUpdate(s, where, k);
    }
  }

  /** A store failure writes nothing and surfaces as the collection-qualified error. */
  lemma UpsertFailureWritesNothing<D>(s: Snapshot<D>, where: D -> bool, data: D, collection: string)
    ensures UpsertStep(s, where, data, true, collection) == (s, Failed(FailureMessage(collection)))
    ensures StartsWith(FailureMessage(collection), "Failed to upsert document in collection ")
    ensures EndsWith(FailureMessage(collection), collection)
  {
    var m := FailureMessage(collection);
    assert m[..40] == "Failed to upsert document in collection ";
    assert m[|m| - |collection|..] == collection;
  }

  /**
   * Upserting the same document twice with a filter that it satisfies creates
   * at most one document: the second call finds the first call's document
   * (or an earlier match) and updates it, since a well-formed store holds
   * no falsy id.
   */
  lemma UpsertTwiceCreatesAtMostOnce<D>(s: Snapshot<D>, where: D -> bool, data: D, collection: string)
    requires WellFormed(s) && where(data)
    ensures var (s1, r1) := UpsertStep(s, where, data, false, collection);
      var (s2, r2) := UpsertStep(s1, where, data, false, collection);
      && r2.Updated?
      && |s2.docs| <= |s.docs| + 1
  {
    var (s1, r1) := UpsertStep(s, where, data, false, collection);
    UpsertKeepsWellFormed(s, where, data, false, collection);
    UpsertCount(s, where, data, false, collection);
    // the position of the document the first call wrote
    var k: nat;
    if UpdateTarget(s, where).Some? {
      k := FirstMatch(s, where).value;
      assert s1.order == s.order;
    } else {
      k := |s.order|;
      assert s1.order[k] == s.nextId;
    }
    MatchMeansUpdate(s1, where, k);
    UpsertCount(s1, where, data, false, collection);
  }

  /** In a well-formed store no id is falsy, so any match makes the upsert an update. */
  lemma MatchMeansUpdate<D>(s: Snapshot<D>, where: D -> bool, k: nat)
    requires WellFormed(s)
    requires k < |s.order| && Matches(s, where, s.order[k])
    ensures UpdateTarget(s, where).Some?
  {
    var m := FirstMatch(s, where);
    assert m.Some?;
    assert s.order[m.value] in s.docs;
  }
}
