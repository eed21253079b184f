/** The weekly payment ledger of the characters admin page: the `pagos_log` table and the two
    server actions that mark and unmark a payment. Each action first calls a database procedure
    (`increment_pago` / `decrement_pago`); only when the backend answers that the procedure does not
    exist (code PGRST202) does the page run its own fallback on the table, which is what is modelled
    here. What a procedure does when it exists is not visible, so after a successful call the
    model promises nothing about the table beyond its id invariant. */
module Payments {
  import opened Js
  import opened AdminGate
  import opened Week
  import opened Characters

  const WEEKLY_CAP: nat := 5
  const PROCEDURE_NOT_FOUND: string := "PGRST202"

  /** A row of `pagos_log`; `id` and `createdAt` are assigned by the store when the row is inserted. */
  datatype PaymentRecord = PaymentRecord(id: nat, characterId: string, createdAt: int)

  /** The answer to the procedure call: success, or an error with its code (if it has one). */
  datatype RpcReply = RpcOk | RpcError(code: Option<string>)

  /** `.eq('character_id', character).gte('created_at', start).lt('created_at', end)` */
  predicate InWindow(r: PaymentRecord, character: string, start: int, end: int) {
    r.characterId == character && start <= r.createdAt < end
  }

  /** The exact count the fallback asks for. */
  function CountInWindow(log: seq<PaymentRecord>, character: string, start: int, end: int): (n: nat)
    ensures n <= |log|
    ensures n == 0 <==> forall i :: 0 <= i < |log| ==> !InWindow(log[i], character, start, end)
  {
    if log == [] then 0
    else
      CountInWindow(log[..|log| - 1], character, start, end)
      + (if InWindow(log[|log| - 1], character, start, end) then 1 else 0)
  }

  /** `.order('created_at', { ascending: false }).limit(1)` over the rows in the window: the position of
      one of the latest of them. Among records with equal timestamps the store's order is not given;
      the model takes the one inserted last. */
  function LatestInWindow(log: seq<PaymentRecord>, character: string, start: int, end: int): (k: Option<nat>)
    ensures k.Some? ==> k.value < |log| && InWindow(log[k.value], character, start, end)
    ensures k.None? <==> CountInWindow(log, character, start, end) == 0
  {
    if log == [] then None
    else
      var last := |log| - 1;
      var prev := LatestInWindow(log[..last], character, start, end);
      if InWindow(log[last], character, start, end) && (prev.None? || log[prev.value].createdAt <= log[last].createdAt)
      then Some(last)
      else prev
  }

  /** No record of the character in the window is later than the one LatestInWindow finds. */
  lemma {:induction false} LatestIsLatest(log: seq<PaymentRecord>, character: string, start: int, end: int)
    requires LatestInWindow(log, character, start, end).Some?
    ensures var k := LatestInWindow(log, character, start, end).value;
      forall j :: 0 <= j < |log| && InWindow(log[j], character, start, end) ==> log[j].createdAt <= log[k].createdAt
  {
    var last := |log| - 1;
    var prefix := log[..last];
    var prev := LatestInWindow(prefix, character, start, end);
    if prev.Some? {
      LatestIsLatest(prefix, character, start, end);
    }
    assert forall j :: 0 <= j < last ==> log[j] == prefix[j];
  }

  /** `delete().eq('id', id)`: every row with that id goes. */
  function RemoveById(log: seq<PaymentRecord>, id: nat): (r: seq<PaymentRecord>)
    ensures |r| <= |log|
    ensures forall i :: 0 <= i < |r| ==> r[i].id != id
  {
    if log == [] then []
    else RemoveById(log[..|log| - 1], id) + (if log[|log| - 1].id == id then [] else [log[|log| - 1]])
  }

  ghost predicate UniqueIds(log: seq<PaymentRecord>) {
    forall i, j :: 0 <= i < j < |log| ==> log[i].id != log[j].id
  }

  /** The log after a successful fallback decrement: the record LatestInWindow finds is gone, or
      nothing changes when there is none. */
  function DeleteLatest(log: seq<PaymentRecord>, character: string, start: int, end: int): (r: seq<PaymentRecord>)
    ensures multiset(r) <= multiset(log) && |log| - 1 <= |r| <= |log|
    ensures CountInWindow(log, character, start, end) == 0 <==> r == log
  {
    match LatestInWindow(log, character, start, end)
    case None => log
    case Some(k) =>
      assert log == log[..k] + [log[k]] + log[k + 1..];
      log[..k] + log[k + 1..]
  }

  lemma {:induction false} CountConcat(a: seq<PaymentRecord>, b: seq<PaymentRecord>, character: string, start: int, end: int)
    ensures CountInWindow(a + b, character, start, end) == CountInWindow(a, character, start, end) + CountInWindow(b, character, start, end)
  {
    if b == [] {
      assert a + b == a;
    } else {
      var b' := b[..|b| - 1];
      assert (a + b)[..|a + b| - 1] == a + b';
      CountConcat(a, b', character, start, end);
    }
  }

  /** Appending one record raises the count of a window by one if the record falls in it, else not at all. */
  lemma CountAppend(log: seq<PaymentRecord>, r: PaymentRecord, character: string, start: int, end: int)
    ensures CountInWindow(log + [r], character, start, end)
         == CountInWindow(log, character, start, end) + (if InWindow(r, character, start, end) then 1 else 0)
  {
    assert (log + [r])[..|log|] == log;
  }

  /** Removing the record at position k lowers the count of a window by one if it fell in it, else not at all. */
  lemma CountRemoveAt(log: seq<PaymentRecord>, k: nat, character: string, start: int, end: int)
    requires k < |log|
    ensures CountInWindow(log[..k] + log[k + 1..], character, start, end)
         == CountInWindow(log, character, start, end) - (if InWindow(log[k], character, start, end) then 1 else 0)
  {
    assert log == log[..k] + [log[k]] + log[k + 1..];
    CountConcat(log[..k] + [log[k]], log[k + 1..], character, start, end);
    CountConcat(log[..k], [log[k]], character, start, end);
    CountConcat(log[..k], log[k + 1..], character, start, end);
    assert CountInWindow([log[k]], character, start, end) == if InWindow(log[k], character, start, end) then 1 else 0 by {
      assert [log[k]][..0] == [];
    }
  }

  lemma {:induction false} RemoveAbsentId(log: seq<PaymentRecord>, id: nat)
    requires forall i :: 0 <= i < |log| ==> log[i].id != id
    ensures RemoveById(log, id) == log
  {
    if log != [] {
      RemoveAbsentId(log[..|log| - 1], id);
    }
  }

  /** With unique ids, deleting by the id of the record at position k removes exactly that record. */
  lemma {:induction false} RemoveUniqueId(log: seq<PaymentRecord>, k: nat)
    requires UniqueIds(log)
    requires k < |log|
    ensures RemoveById(log, log[k].id) == log[..k] + log[k + 1..]
  {
    var last := |log| - 1;
    var prefix := log[..last];
    if k == last {
      RemoveAbsentId(prefix, log[k].id);
    } else {
      assert prefix[k] == log[k];
      RemoveUniqueId(prefix, k);
      assert prefix[..k] + prefix[k + 1..] + [log[last]] == log[..k] + log[k + 1..];
    }
  }

  /** Removing one record keeps the ids unique and below the next id. */
  lemma RemoveAtKeepsIds(log: seq<PaymentRecord>, k: nat, bound: nat)
    requires UniqueIds(log) && forall i :: 0 <= i < |log| ==> log[i].id < bound
    requires k < |log|
    ensures var r := log[..k] + log[k + 1..];
      UniqueIds(r) && forall i :: 0 <= i < |r| ==> r[i].id < bound
  {
    var r := log[..k] + log[k + 1..];
    assert forall i :: 0 <= i < |r| ==> r[i] == log[if i < k then i else i + 1];
  }

  /** A decrement removes one in-window record when there is one, so the count becomes max(0, count - 1);
      every other record stays, in order. */
  lemma DecrementCount(log: seq<PaymentRecord>, character: string, start: int, end: int)
    ensures var n := CountInWindow(log, character, start, end);
      CountInWindow(DeleteLatest(log, character, start, end), character, start, end) == if n == 0 then 0 else n - 1
    ensures LatestInWindow(log, character, start, end).Some? ==>
      |DeleteLatest(log, character, start, end)| == |log| - 1
  {
    match LatestInWindow(log, character, start, end)
    case None =>
    case Some(k) => CountRemoveAt(log, k, character, start, end);
  }

  /** A decrement for one character leaves every other character's count, in every window, as it was. */
  lemma DecrementLeavesOthers(log: seq<PaymentRecord>, character: string, start: int, end: int,
                              other: string, start': int, end': int)
    requires other != character
    ensures CountInWindow(DeleteLatest(log, character, start, end), other, start', end')
         == CountInWindow(log, other, start', end')
  {
    match LatestInWindow(log, character, start, end)
    case None =>
    case Some(k) => CountRemoveAt(log, k, other, start', end');
  }

  /** A record stamped in the accounting week of `now` raises that week's count for its character by
      exactly one; a record stamped in another week leaves it unchanged. */
  lemma AppendWeeklyCount(log: seq<PaymentRecord>, r: PaymentRecord, now: int)
    ensures var start := AccountingWeekStart(now);
      CountInWindow(log + [r], r.characterId, start, AccountingWeekEnd(now))
      == CountInWindow(log, r.characterId, start, AccountingWeekEnd(now))
         + (if AccountingWeekStart(r.createdAt) == start then 1 else 0)
  {
    var start := AccountingWeekStart(now);
    CountAppend(log, r, r.characterId, start, AccountingWeekEnd(now));
    InWindowIffSameWeek(now, r.createdAt);
  }

  /** Decrement undoes increment: when the record just appended is in the window and no other record of
      the character in the window is later, the decrement removes that very record and the log is
      exactly as before the increment. */
  lemma DecrementUndoesIncrement(log: seq<PaymentRecord>, r: PaymentRecord, start: int, end: int)
    requires InWindow(r, r.characterId, start, end)
    requires forall j :: 0 <= j < |log| && InWindow(log[j], r.characterId, start, end) ==> log[j].createdAt <= r.createdAt
    ensures DeleteLatest(log + [r], r.characterId, start, end) == log
  {
    var log' := log + [r];
    assert log'[..|log|] == log;
    assert LatestInWindow(log', r.characterId, start, end) == Some(|log|);
  }

  /** Whatever record the decrement picks, an increment stamped in the window followed by a decrement
      leaves the count where it was. */
  lemma IncrementThenDecrementCount(log: seq<PaymentRecord>, r: PaymentRecord, start: int, end: int)
    requires InWindow(r, r.characterId, start, end)
    ensures CountInWindow(DeleteLatest(log + [r], r.characterId, start, end), r.characterId, start, end)
         == CountInWindow(log, r.characterId, start, end)
  {
    CountAppend(log, r, r.characterId, start, end);
    DecrementCount(log + [r], r.characterId, start, end);
  }

  /** The `pagos_log` table. The store hands out ids that were never used before (`nextId` on). */
  class PaymentLog {
    var records: seq<PaymentRecord>
    var nextId: nat

    ghost predicate Valid()
      reads this
    {
      UniqueIds(records) && forall i :: 0 <= i < |records| ==> records[i].id < nextId
    }

    constructor ()
      ensures Valid() && records == [] && nextId == 0
    {
      records := [];
      nextId := 0;
    }

    /** The fallback of incrementPayment for a checked id: count the character's records in the accounting
        week of `now` and insert one more below the cap. `insertedAt` is the store's clock when it stamps
        the new row's created_at (the insert sends only character_id); `countFails` and `insertFails` say
        whether the two store calls return an error. */
    method FallbackIncrement(id: string, now: int, insertedAt: int, countFails: bool, insertFails: bool)
      returns (o: Outcome<(), Failure>)
      requires Valid()
      modifies this
      ensures Valid()
      ensures var start := AccountingWeekStart(now);
        var count := CountInWindow(old(records), id, start, AccountingWeekEnd(now));
        && (countFails ==> o == Failed(StoreFailed(CountQuery)))
        && (!countFails && count >= WEEKLY_CAP ==> o == Failed(WeeklyLimitReached))
        && (!countFails && count < WEEKLY_CAP && insertFails ==> o == Failed(StoreFailed(InsertRecord)))
        && (o.Done? <==> !countFails && count < WEEKLY_CAP && !insertFails)
      ensures records == (if o.Done? then old(records) + [PaymentRecord(old(nextId), id, insertedAt)] else old(records))
      ensures nextId == (if o.Done? then old(nextId) + 1 else old(nextId))
    {
      var start, end := WeekWindow(now);
      if countFails {
        return Failed(StoreFailed(CountQuery));
      }
      var count := CountInWindow(records, id, start, end);
      if count >= WEEKLY_CAP {
        return Failed(WeeklyLimitReached);
      }
      if insertFails {
        return Failed(StoreFailed(InsertRecord));
      }
      records := records + [PaymentRecord(nextId, id, insertedAt)];
      nextId := nextId + 1;
      o := Done(());
    }

    /** `delete().eq('id', toDel)` for the id of the latest record of `character` in [start, end),
        found at position k. */
    method DeleteById(toDel: nat, ghost character: string, ghost start: int, ghost end: int, ghost k: nat)
      requires Valid()
      requires LatestInWindow(records, character, start, end) == Some(k) && records[k].id == toDel
      modifies this
      ensures Valid() && nextId == old(nextId)
      ensures records == DeleteLatest(old(records), character, start, end)
    {
      RemoveUniqueId(records, k);
      RemoveAtKeepsIds(records, k, nextId);
      records := RemoveById(records, toDel);
    }

    /** The select of the latest record of `character` in [start, end) and the delete of that record;
        nothing is deleted when there is none. `deleteFails` says whether the delete returns an error. */
    method DeleteLatestInWindow(character: string, start: int, end: int, deleteFails: bool)
      returns (o: Outcome<(), Failure>)
      requires Valid()
      modifies this
      ensures Valid() && nextId == old(nextId)
      ensures o.Done? || o == Failed(StoreFailed(DeleteRecord))
      ensures o.Done? <==> !(LatestInWindow(old(records), character, start, end).Some? && deleteFails)
      ensures records == (if o.Done? then DeleteLatest(old(records), character, start, end) else old(records))
    {
      var latest := LatestInWindow(records, character, start, end);
      if latest.None? {
        o := Done(());
      } else if deleteFails {
        o := Failed(StoreFailed(DeleteRecord));
      } else {
        DeleteById(records[latest.value].id, character, start, end, latest.value);
        o := Done(());
      }
    }

    /** The fallback of decrementPayment for a checked id: find the latest record of the character in the
        accounting week of `now` and delete it by id. `selectFails` and `deleteFails` say whether the two
        store calls return an error. */
    method FallbackDecrement(id: string, now: int, selectFails: bool, deleteFails: bool)
      returns (o: Outcome<(), Failure>)
      requires Valid()
      modifies this
      ensures Valid() && nextId == old(nextId)
      ensures var start := AccountingWeekStart(now);
        var latest := LatestInWindow(old(records), id, start, AccountingWeekEnd(now));
        && (selectFails ==> o == Failed(StoreFailed(SelectLatest)))
        && (!selectFails && latest.Some? && deleteFails ==> o == Failed(StoreFailed(DeleteRecord)))
        && (o.Done? <==> !selectFails && !(latest.Some? && deleteFails))
        && records == (if o.Done? then DeleteLatest(old(records), id, start, AccountingWeekEnd(now)) else old(records))
    {
      var start, end := WeekWindow(now);
      if selectFails {
        o := Failed(StoreFailed(SelectLatest));
      } else {
        o := DeleteLatestInWindow(id, start, end, deleteFails);
      }
    }

    /** incrementPayment: the gate, the id check, the procedure call, and the fallback only when the
        procedure is missing; any other error of the call is rethrown with the table untouched. What
        a successful call does to the table is the procedure's business and is not stated. */
    method IncrementPayment(user: Option<string>, isAdmin: string -> Option<bool>, idField: Option<string>,
                            rpc: RpcReply, now: int, insertedAt: int, countFails: bool, insertFails: bool)
      returns (o: Outcome<(), Failure>)
      requires Valid()
      modifies this
      ensures Valid()
      ensures var pre := AdminAndId(user, isAdmin, idField);
        && (pre.Redirected? ==> o == Redirected(pre.to))
        && (pre.Failed? ==> o == Failed(pre.reason))
        && (pre.Done? && rpc.RpcOk? ==> o == Done(()))
        && (pre.Done? && rpc.RpcError? && rpc.code != Some(PROCEDURE_NOT_FOUND) ==> o == Failed(RpcFailed(rpc.code)))
      ensures var pre := AdminAndId(user, isAdmin, idField);
        !(pre.Done? && rpc.RpcOk?) && !(pre.Done? && rpc == RpcError(Some(PROCEDURE_NOT_FOUND))) ==>
          records == old(records) && nextId == old(nextId)
      ensures var pre := AdminAndId(user, isAdmin, idField);
        pre.Done? && rpc == RpcError(Some(PROCEDURE_NOT_FOUND)) ==>
          var start := AccountingWeekStart(now);
          var count := CountInWindow(old(records), pre.value, start, AccountingWeekEnd(now));
          && (countFails ==> o == Failed(StoreFailed(CountQuery)))
          && (!countFails && count >= WEEKLY_CAP ==> o == Failed(WeeklyLimitReached))
          && (!countFails && count < WEEKLY_CAP && insertFails ==> o == Failed(StoreFailed(InsertRecord)))
          && (o.Done? <==> !countFails && count < WEEKLY_CAP && !insertFails)
          && nextId == (if o.Done? then old(nextId) + 1 else old(nextId))
          && records == (if o.Done? then old(records) + [PaymentRecord(old(nextId), pre.value, insertedAt)] else old(records))
    {
      var pre := AdminAndId(user, isAdmin, idField);
      match pre
      case Redirected(p) => o := Redirected(p);
      case Failed(f) => o := Failed(f);
      case Done(id) =>
        match rpc
        case RpcOk => o := Done(());
        case RpcError(code) =>
          if code == Some(PROCEDURE_NOT_FOUND) {
            o := FallbackIncrement(id, now, insertedAt, countFails, insertFails);
          } else {
            o := Failed(RpcFailed(code));
          }
    }

    /** decrementPayment: the gate, the id check, the procedure call, and the fallback only when the
        procedure is missing; any other error of the call is rethrown with the table untouched. What
        a successful call does to the table is the procedure's business and is not stated. */
    method DecrementPayment(user: Option<string>, isAdmin: string -> Option<bool>, idField: Option<string>,
                            rpc: RpcReply, now: int, selectFails: bool, deleteFails: bool)
      returns (o: Outcome<(), Failure>)
      requires Valid()
      modifies this
      ensures Valid()
      ensures var pre := AdminAndId(user, isAdmin, idField);
        && (pre.Redirected? ==> o == Redirected(pre.to))
        && (pre.Failed? ==> o == Failed(pre.reason))
        && (pre.Done? && rpc.RpcOk? ==> o == Done(()))
        && (pre.Done? && rpc.RpcError? && rpc.code != Some(PROCEDURE_NOT_FOUND) ==> o == Failed(RpcFailed(rpc.code)))
      ensures var pre := AdminAndId(user, isAdmin, idField);
        !(pre.Done? && rpc.RpcOk?) && !(pre.Done? && rpc == RpcError(Some(PROCEDURE_NOT_FOUND))) ==>
          records == old(records) && nextId == old(nextId)
      ensures var pre := AdminAndId(user, isAdmin, idField);
        pre.Done? && rpc == RpcError(Some(PROCEDURE_NOT_FOUND)) ==>
          var start := AccountingWeekStart(now);
          && nextId == old(nextId)
          && (selectFails ==> o == Failed(StoreFailed(SelectLatest)))
          && ((!selectFails && LatestInWindow(old(records), pre.value, start, AccountingWeekEnd(now)).Some? && deleteFails)
              ==> o == Failed(StoreFailed(DeleteRecord)))
          && (o.Done? <==> !selectFails && !(LatestInWindow(old(records), pre.value, start, AccountingWeekEnd(now)).Some? && deleteFails))
          && records == (if o.Done? then DeleteLatest(old(records), pre.value, start, AccountingWeekEnd(now)) else old(records))
    {
      var pre := AdminAndId(user, isAdmin, idField);
      match pre
      case Redirected(p) => o := Redirected(p);
      case Failed(f) => o := Failed(f);
      case Done(id) =>
        match rpc
        case RpcOk => o := Done(());
        case RpcError(code) =>
          if code == Some(PROCEDURE_NOT_FOUND) {
            o := FallbackDecrement(id, now, selectFails, deleteFails);
          } else {
            o := Failed(RpcFailed(code));
          }
    }
  }
}
