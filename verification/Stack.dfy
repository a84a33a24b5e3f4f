/** The stack of states of `vcom.h`, in place. */
module Stack {
  import opened Handlers

  const STACK_MAX := 10

  /** `struct stk_vc`. */
  class StkVc {
    var top: int
    const stkStat: array<St>

    ghost predicate Valid()
      reads this
    {
      stkStat.Length == STACK_MAX && -1 <= top < STACK_MAX
    }

    ghost function Contents(): seq<St>
      reads this, stkStat
      requires Valid()
    {
      stkStat[..top + 1]
    }

    constructor ()
      ensures Valid() && fresh(stkStat) && Contents() == []
    {
      stkStat := new St[STACK_MAX](_ => NetDown);
      top := -1;
    }

    /** `stk_push`; a full stack refuses. */
    method Push(current: St) returns (ret: int)
      requires Valid()
      modifies this`top, stkStat
      ensures Valid() && ret == (if |old(Contents())| == STACK_MAX then -1 else 0)
      ensures Contents() == if ret == 0 then old(Contents()) + [current] else old(Contents())
    {
      if top >= STACK_MAX - 1 {
        return -1;
      }
      top := top + 1;
      stkStat[top] := current;
      return 0;
    }

    /** `stk_pop`; an empty stack refuses. */
    method Pop() returns (ret: int)
      requires Valid()
      modifies this`top
      ensures Valid() && ret == (if old(Contents()) == [] then -1 else 0)
      ensures Contents() == if ret == 0 then old(Contents())[..|old(Contents())| - 1] else []
    {
      if top < 0 {
        return -1;
      }
      top := top - 1;
      return 0;
    }

    /** `stk_excp`, and `stk_restart`: back to the bottom. */
    method Excp() returns (ret: int)
      requires Valid() && top >= 0
      modifies this`top
      ensures Valid() && Contents() == old(Contents())[..1]
      ensures ret == if |old(Contents())| == 1 then -1 else 0
    {
      if top == 0 {
        return -1;
      }
      top := 0;
      return 0;
    }

    /** `stk_rpls`. */
    method Rpls(current: St)
      requires Valid() && top >= 0
      modifies stkStat
      ensures Valid() && Contents() == old(Contents())[..top] + [current]
    {
      stkStat[top] := current;
    }

    /** `stk_curnt`; on an empty stack the source exits. */
    function Curnt(): (s: St)
      reads this, stkStat
      requires Valid() && top >= 0
      ensures s == Contents()[|Contents()| - 1]
    {
      stkStat[top]
    }
  }
}
