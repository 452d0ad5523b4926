/** Model of lib/threadz/atomic_integer.rb: a counter whose every operation runs
    under its own mutex. In this sequential model each call is one atomic step
    on the integer field, so the lock itself disappears. */
module AtomicIntegers {

  class AtomicInteger {
    var value: int

    /** `AtomicInteger.new(v)`: the counter starts at `v`. */
    constructor (value: int)
      ensures this.value == value
    {
      this.value := value;
    }

    /** `value`: reads the counter and changes nothing. */
    method Value() returns (v: int)
      ensures v == value
    {
      v := value;
    }

    /** `increment(amount=1)`. */
    method Increment(amount: int := 1)
      modifies this
      ensures value == old(value) + amount
    {
      value := value + amount;
    }

    /** `decrement(amount=1)`: there is no lower bound, the value may go negative. */
    method Decrement(amount: int := 1)
      modifies this
      ensures value == old(value) - amount
    {
      value := value - amount;
    }

    /** `set(v)`: replaces the value. */
    method Set(value: int)
      modifies this
      ensures this.value == value
    {
      this.value := value;
    }
  }

  /** One call on the counter, as made by some thread. */
  datatype CounterOp = Inc(amount: int) | Dec(amount: int) | SetTo(newValue: int)

  /** The effect of one call on the counter's value. */
  function Step(v: int, op: CounterOp): int
  {
    match op
    case Inc(n) => v + n
    case Dec(n) => v - n
    case SetTo(w) => w
  }

  /** The value after a whole interleaving of calls, applied one at a time. */
  function Apply(v: int, ops: seq<CounterOp>): int
    decreases |ops|
  {
    if ops == [] then v else Apply(Step(v, ops[0]), ops[1..])
  }

  /** Every call in the interleaving is `increment` or `decrement` with the default amount. */
  ghost predicate UnitOps(ops: seq<CounterOp>)
  {
    forall k :: 0 <= k < |ops| ==> ops[k] == Inc(1) || ops[k] == Dec(1)
  }

  /** No update is lost: after unit increments and decrements, in any order,
      the counter has moved by their difference. */
  lemma {:induction false} ApplyUnitOps(v: int, ops: seq<CounterOp>)
    requires UnitOps(ops)
    ensures Apply(v, ops) == v + multiset(ops)[Inc(1)] - multiset(ops)[Dec(1)]
    decreases |ops|
  {
    if ops != [] {
      assert ops == [ops[0]] + ops[1..];
      assert multiset(ops) == multiset{ops[0]} + multiset(ops[1..]);
      assert UnitOps(ops[1..]) by {
        forall k | 0 <= k < |ops[1..]|
          ensures ops[1..][k] == Inc(1) || ops[1..][k] == Dec(1)
        {
          assert ops[1..][k] == ops[k + 1];
        }
      }
      ApplyUnitOps(Step(v, ops[0]), ops[1..]);
    }
  }

  /** Any interleaving of k increments and k decrements by 1 returns the counter to its start value. */
  lemma {:induction false} BalancedOpsRestore(v: int, ops: seq<CounterOp>)
    requires UnitOps(ops)
    requires multiset(ops)[Inc(1)] == multiset(ops)[Dec(1)]
    ensures Apply(v, ops) == v
  {
    ApplyUnitOps(v, ops);
  }

  /** Performs an interleaving of calls on one counter, one atomic call at a time. */
  method RunOps(c: AtomicInteger, ops: seq<CounterOp>)
    modifies c
    ensures c.value == Apply(old(c.value), ops)
  {
    var k := 0;
    while k < |ops|
      invariant 0 <= k <= |ops|
      invariant Apply(c.value, ops[k..]) == Apply(old(c.value), ops)
    {
      assert ops[k..][1..] == ops[k + 1..];
      match ops[k] {
        case Inc(n) => c.Increment(n);
        case Dec(n) => c.Decrement(n);
        case SetTo(w) => c.Set(w);
      }
      k := k + 1;
    }
    assert ops[k..] == [];
  }
}
