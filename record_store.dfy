/**
 * The tax-record collection as an object: the stored records in insertion order and the
 * counter that hands out record ids. `/calculate` and delete change it; `/history` and
 * `/stats` read it. Every method keeps the store's invariant: the records are valid, have
 * distinct ids, and each id is below the counter.
 */
module RecordStore {
  import opened Wrappers
  import opened TaxRecordModel
  import opened TaxRoutes
  import opened TaxRoutesProperties

  /** The store's invariant on a sequence of records and the next id. */
  predicate StoreInvariant(rs: seq<TaxRecord>, next: RecordId)
  {
    && (forall i :: 0 <= i < |rs| ==> ValidRecord(rs[i]) && rs[i].id < next)
    && DistinctIds(rs)
  }

  /** Appending a valid record with the next id, and advancing the counter, keeps the invariant. */
  lemma AppendKeepsInvariant(rs: seq<TaxRecord>, next: RecordId, r: TaxRecord)
    requires StoreInvariant(rs, next) && ValidRecord(r) && r.id == next
    ensures StoreInvariant(rs + [r], next + 1)
  {
    var t := rs + [r];
    forall i | 0 <= i < |t| ensures ValidRecord(t[i]) && t[i].id < next + 1 {
      if i < |rs| {
        assert t[i] == rs[i];
      }
    }
  }

  class TaxRecordStore {
    var records: seq<TaxRecord>
    var nextId: RecordId

    /** Every stored record satisfies the schema, and ids are distinct and already handed out. */
    ghost predicate Valid()
      reads this
    {
      StoreInvariant(records, nextId)
    }

    /** An empty collection. */
    constructor ()
      ensures Valid() && records == [] && nextId == 0
    {
      records := [];
      nextId := 0;
    }

    /**
     * POST /calculate for `user` at time `now`. A request accepted by the handler's
     * checks is given the next id whether or not its record then validates; a record is
     * appended only when it validates; no other user's records change.
     */
    method Calculate(user: UserId, req: CalcRequest, now: int) returns (outcome: CalcOutcome)
      requires Valid()
      modifies this
      ensures Valid()
      ensures outcome == CalculateOutcome(user, req, old(nextId), now)
      ensures records == (if outcome.Created? then old(records) + [outcome.record] else old(records))
      ensures outcome.Rejected? ==> nextId == old(nextId)
      ensures !outcome.Rejected? ==> nextId == old(nextId) + 1
      ensures forall other :: other != user ==> OwnedBy(records, other) == OwnedBy(old(records), other)
    {
      outcome := CalculateOutcome(user, req, nextId, now);
      if outcome.Created? {
        CreatedRecord(user, req, nextId, now);
        Append(outcome.record);
      } else if outcome.SaveFailed? {
        SkipId();
      }
    }

    /** Stores a valid record under the next id and advances the counter. */
    method Append(r: TaxRecord)
      requires Valid() && ValidRecord(r) && r.id == nextId
      modifies this
      ensures Valid()
      ensures records == old(records) + [r] && nextId == old(nextId) + 1
      ensures forall other :: other != r.user ==> OwnedBy(records, other) == OwnedBy(old(records), other)
    {
      AppendKeepsInvariant(records, nextId, r);
      forall other | other != r.user ensures OwnedBy(records + [r], other) == OwnedBy(records, other) {
        AppendIsolation(records, r, other);
      }
      records := records + [r];
      nextId := nextId + 1;
    }

    /** Uses up the next id without storing a record, as a document that fails validation does. */
    method SkipId()
      requires Valid()
      modifies this
      ensures Valid()
      ensures records == old(records) && nextId == old(nextId) + 1
    {
      nextId := nextId + 1;
    }

    /** GET /history for `user`. */
    method GetHistory(user: UserId, q: HistoryQuery, nameMatches: (string, string) -> bool)
      returns (result: Result<HistoryPage, QueryError>)
      ensures result == History(records, user, q, nameMatches)
    {
      result := History(records, user, q, nameMatches);
    }

    /** GET /stats for `user`. */
    method GetStats(user: UserId) returns (stats: Stats)
      ensures stats == StatsOf(records, user)
    {
      stats := StatsOf(records, user);
    }

    /**
     * DELETE /:id for `user`: removes the user's record with that id and reports whether
     * there was one; a record of another user with that id stays, and is reported as not
     * found. No other record changes.
     */
    method Delete(user: UserId, id: RecordId) returns (found: bool)
      requires Valid()
      modifies this
      ensures Valid()
      ensures found == FindOwned(old(records), id, user).Some?
      ensures records == DeleteOwned(old(records), id, user)
      ensures found ==> forall i :: 0 <= i < |records| ==> records[i].id != id
      ensures nextId == old(nextId)
      ensures forall other :: other != user ==> OwnedBy(records, other) == OwnedBy(old(records), other)
    {
      var old_records := records;
      DeleteRemovesRecord(records, id, user);
      found := FindOwned(records, id, user).Some?;
      records := DeleteOwned(records, id, user);
      forall other | other != user ensures OwnedBy(records, other) == OwnedBy(old_records, other) {
        DeleteIsolation(old_records, id, user, other);
      }
    }
  }
}
