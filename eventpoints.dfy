/** The event-point counter of a character: the `event_points` column of the `characters` table,
    changed by a read-modify-write of the row. */
module EventPoints {
  import opened Js
  import opened AdminGate
  import opened Characters

  /** `Number(row?.event_points ?? 0)`: a missing row or a NULL column reads as 0. */
  function ReadPoints(table: map<string, Option<int>>, id: string): (n: int)
    ensures id !in table || table[id].None? ==> n == 0
    ensures id in table && table[id].Some? ==> n == table[id].value
  {
    if id in table && table[id].Some? then table[id].value else 0
  }

  /** `current + 1`: the increment is undone by the floored decrement whenever the count it started
      from was not negative. */
  function Incremented(current: int): (next: int)
    ensures next > current && (current >= 0 ==> next >= 1)
    ensures current >= 0 ==> FlooredDecrement(next) == current
  {
    current + 1
  }

  /** `Math.max(0, current - 1)`. */
  function FlooredDecrement(current: int): (next: int)
    ensures next >= 0
    ensures current >= 1 ==> next == current - 1
    ensures current <= 1 ==> next == 0
  {
    if current - 1 > 0 then current - 1 else 0
  }

  /** `.update({ event_points: next }).eq('id', id)`: only an existing row is changed. */
  function WritePoints(table: map<string, Option<int>>, id: string, next: int): (t: map<string, Option<int>>)
    ensures t.Keys == table.Keys
    ensures forall other :: other in table && other != id ==> t[other] == table[other]
    ensures id in table ==> t[id] == Some(next)
  {
    if id in table then table[id := Some(next)] else table
  }

  ghost predicate NonNegative(table: map<string, Option<int>>) {
    forall id :: id in table && table[id].Some? ==> table[id].value >= 0
  }

  /** Writing a non-negative value keeps every stored value non-negative. */
  lemma WriteKeepsNonNegative(table: map<string, Option<int>>, id: string, next: int)
    requires NonNegative(table) && next >= 0
    ensures NonNegative(WritePoints(table, id, next))
    ensures ReadPoints(table, id) >= 0
  {
  }

  /** Incrementing after decrementing gives back a positive count; a count of zero stays zero. */
  lemma PointsRoundTrip(current: int)
    ensures current >= 1 ==> Incremented(FlooredDecrement(current)) == current
    ensures current <= 0 ==> FlooredDecrement(current) == 0
  {
  }

  class CharacterPoints {
    /** The event_points column, by character id; None is NULL. */
    var points: map<string, Option<int>>

    constructor (initial: map<string, Option<int>>)
      ensures points == initial
    {
      points := initial;
    }

    /** The read-modify-write of the counter of a checked id: read the value, store `step` of it.
        `selectFails` and `updateFails` say whether the two store calls return an error. */
    method ReadModifyWrite(id: string, increment: bool, selectFails: bool, updateFails: bool)
      returns (o: Outcome<(), Failure>)
      modifies this
      ensures selectFails ==> o == Failed(StoreFailed(SelectPoints))
      ensures !selectFails && updateFails ==> o == Failed(StoreFailed(UpdatePoints))
      ensures o.Done? <==> !selectFails && !updateFails
      ensures !o.Done? ==> points == old(points)
      ensures o.Done? && increment ==> points == WritePoints(old(points), id, Incremented(ReadPoints(old(points), id)))
      ensures o.Done? && !increment ==> points == WritePoints(old(points), id, FlooredDecrement(ReadPoints(old(points), id)))
      ensures NonNegative(old(points)) ==> NonNegative(points)
    {
      if selectFails {
        return Failed(StoreFailed(SelectPoints));
      }
      var current := ReadPoints(points, id);
      var next := if increment then Incremented(current) else FlooredDecrement(current);
      if updateFails {
        return Failed(StoreFailed(UpdatePoints));
      }
      if NonNegative(points) {
        WriteKeepsNonNegative(points, id, next);
      }
      points := WritePoints(points, id, next);
      o := Done(());
    }

    /** incrementEventPoints: store the value read plus one. */
    method IncrementEventPoints(user: Option<string>, isAdmin: string -> Option<bool>, idField: Option<string>,
                                selectFails: bool, updateFails: bool)
      returns (o: Outcome<(), Failure>)
      modifies this
      ensures var pre := AdminAndId(user, isAdmin, idField);
        && (pre.Redirected? ==> o == Redirected(pre.to))
        && (pre.Failed? ==> o == Failed(pre.reason))
        && (pre.Done? && selectFails ==> o == Failed(StoreFailed(SelectPoints)))
        && (pre.Done? && !selectFails && updateFails ==> o == Failed(StoreFailed(UpdatePoints)))
        && (o.Done? <==> pre.Done? && !selectFails && !updateFails)
        && points == (if o.Done? then WritePoints(old(points), pre.value, Incremented(ReadPoints(old(points), pre.value))) else old(points))
      ensures NonNegative(old(points)) ==> NonNegative(points)
    {
      match AdminAndId(user, isAdmin, idField)
      case Redirected(p) => o := Redirected(p);
      case Failed(f) => o := Failed(f);
      case Done(id) => o := ReadModifyWrite(id, true, selectFails, updateFails);
    }

    /** decrementEventPoints: store the value read minus one, but never below zero. */
    method DecrementEventPoints(user: Option<string>, isAdmin: string -> Option<bool>, idField: Option<string>,
                                selectFails: bool, updateFails: bool)
      returns (o: Outcome<(), Failure>)
      modifies this
      ensures var pre := AdminAndId(user, isAdmin, idField);
        && (pre.Redirected? ==> o == Redirected(pre.to))
        && (pre.Failed? ==> o == Failed(pre.reason))
        && (pre.Done? && selectFails ==> o == Failed(StoreFailed(SelectPoints)))
        && (pre.Done? && !selectFails && updateFails ==> o == Failed(StoreFailed(UpdatePoints)))
        && (o.Done? <==> pre.Done? && !selectFails && !updateFails)
        && points == (if o.Done? then WritePoints(old(points), pre.value, FlooredDecrement(ReadPoints(old(points), pre.value))) else old(points))
        && (o.Done? && pre.value in points ==> points[pre.value].Some? && points[pre.value].value >= 0)
      ensures NonNegative(old(points)) ==> NonNegative(points)
    {
      match AdminAndId(user, isAdmin, idField)
      case Redirected(p) => o := Redirected(p);
      case Failed(f) => o := Failed(f);
      case Done(id) => o := ReadModifyWrite(id, false, selectFails, updateFails);
    }
  }
}
