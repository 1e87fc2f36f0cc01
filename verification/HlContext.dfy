/** The session store: a fixed array of actions, how many are in it, and which is next to be signed. */
module HlContext {
  import opened Bytes
  import opened Model
  import opened Review
  import opened Session

  /** Actions of other types do not matter to a search. */
  lemma {:induction false} LookupSkips(actions: seq<Action>, t: ActionType, k: nat)
    requires k <= |actions| && forall j :: 0 <= j < k ==> TypeOf(actions[j].body) != t
    ensures Lookup(actions, t) == Lookup(actions[k..], t)
  {
    if k == 0 {
      assert actions[0..] == actions;
    } else {
      LookupSkips(actions[1..], t, k - 1);
      assert actions[1..][k - 1..] == actions[k..];
    }
  }

  const NO_ACTION := Action(BulkCancel([]), 0)

  class ActionStore {
    var metadata: Option<Metadata>
    const slots: array<Action>
    var count: nat
    var index: nat

    ghost predicate Valid()
      reads this
    {
      slots.Length == MAX_ACTION_COUNT && index <= count <= MAX_ACTION_COUNT
    }

    /** The context that the store stands for; slots beyond the count do not matter. */
    ghost function Value(): (c: Ctx)
      requires Valid()
      reads this, slots
      ensures |c.actions| == count && c.index <= |c.actions|
    {
      Ctx(metadata, slots[..count], index)
    }

    constructor ()
      ensures Valid() && Value() == EMPTY_CTX && fresh(slots)
    {
      slots := new Action[MAX_ACTION_COUNT](_ => NO_ACTION);
      metadata, count, index := None, 0, 0;
    }

    /** ctx_reset */
    method Reset()
      requires slots.Length == MAX_ACTION_COUNT
      modifies this, slots
      ensures Valid() && Value() == EMPTY_CTX
    {
      forall i | 0 <= i < slots.Length {
        slots[i] := NO_ACTION;
      }
      metadata, count, index := None, 0, 0;
    }

    /** ctx_save_action_metadata */
    method SaveMetadata(m: Metadata)
      requires Valid()
      modifies this`metadata
      ensures Valid() && Value() == old(Value()).(metadata := Some(m))
    {
      metadata := Some(m);
    }

    /** ctx_push_action */
    method Push(a: Action) returns (ok: bool)
      requires Valid()
      modifies this`count, slots
      ensures Valid() && ok == CanPush(old(Value()), a)
      ensures Value() == if ok then old(Value()).(actions := old(Value()).actions + [a]) else old(Value())
    {
      if count >= MAX_ACTION_COUNT || index > 0 {
        return false;
      }
      for i := 0 to count
        invariant forall j :: 0 <= j < i ==> TypeOf(slots[j].body) != TypeOf(a.body)
      {
        if TypeOf(slots[i].body) == TypeOf(a.body) {
          assert TypeOf(Value().actions[i].body) == TypeOf(a.body);
          return false;
        }
      }
      slots[count] := a;
      count := count + 1;
      assert Value().actions == old(Value()).actions + [a];
      return true;
    }

    /** ctx_get_current_action */
    method Current() returns (r: Option<Action>)
      requires Valid()
      ensures r == if index < count then Some(Value().actions[index]) else None
    {
      if index >= count { return None; }
      return Some(slots[index]);
    }

    /** ctx_switch_to_next_action, which is called only after a current action was found. */
    method Next()
      requires Valid() && index < count
      modifies this`index
      ensures Valid() && Value() == old(Value()).(index := old(index) + 1)
    {
      index := index + 1;
    }

    /** ctx_get_action */
    method Get(t: ActionType) returns (r: Option<Action>)
      requires Valid()
      ensures r == Lookup(Value().actions, t)
    {
      ghost var actions := Value().actions;
      for i := 0 to count
        invariant forall j :: 0 <= j < i ==> TypeOf(slots[j].body) != t
      {
        if TypeOf(slots[i].body) == t {
          LookupSkips(actions, t, i);
          return Some(slots[i]);
        }
      }
      LookupSkips(actions, t, count);
      return None;
    }

    /** ctx_remaining_actions: the 8-bit subtraction never wraps, since the index never passes the count. */
    method Remaining() returns (r: nat)
      requires Valid()
      ensures r == |Value().actions| - Value().index
    {
      r := (count - index) % 0x100;
    }

    /** is_action_compatible */
    method IsCompatible(t: ActionType, op: OpType) returns (ok: bool)
      requires Valid()
      ensures ok == Compatible(t, op, Value().actions)
    {
      match op {
        case OpOrder =>
          return t == TBulkOrder || t == TUpdateLeverage || t == TApproveBuilderFee || t == TUserSetAbstraction;
        case OpModify =>
          if t != TBulkModify && t != TBulkOrder {
            return false;
          }
          var edits := Get(TBulkModify);
          var orders := Get(TBulkOrder);
          return edits.None? && orders.None?;
        case OpClose =>
          return t == TBulkOrder;
        case OpUpdateMargin =>
          return t == TUpdateIsolatedMargin;
        case _ =>
          return t == TBulkCancel;
      }
    }
  }
}
