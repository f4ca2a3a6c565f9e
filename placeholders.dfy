/**
 * The shape every listing query shares: a WHERE clause grown condition by
 * condition, where a condition either reads the next `$n` placeholder
 * (its value pushed onto the parameter array at the same time) or is a
 * fixed literal. `Decode` reads the conditions back through the
 * placeholders, which is how the builders are proved to bind each filter
 * to its own value.
 */
module Placeholders {
  import opened Query

  /** A condition on filter `field`: through placeholder `$param`, or a literal of the SQL text. */
  datatype Cond<F> = Bound(field: F, param: nat) | Fixed(field: F, literal: Value)

  /** The value bound to placeholder `$n`, or NULL when `$n` is out of range. */
  function At(params: seq<Value>, n: nat): (v: Value)
    ensures 1 <= n <= |params| ==> v == params[n - 1]
  {
    if 1 <= n <= |params| then params[n - 1] else VNull
  }

  /** What each filter is compared with, read back through the placeholders. */
  function Decode<F(==)>(where: seq<Cond<F>>, params: seq<Value>): map<F, Value>
  {
    if where == [] then map[]
    else
      var c := where[|where| - 1];
      Decode(where[..|where| - 1], params)[c.field := if c.Bound? then At(params, c.param) else c.literal]
  }

  /**
   * Conditions and parameters were pushed side by side: the k-th bound
   * condition reads `$k`, and every parameter is read by one condition.
   */
  predicate WellNumbered<F>(where: seq<Cond<F>>, params: seq<Value>)
    decreases |where|
  {
    if where == [] then params == []
    else if where[|where| - 1].Bound? then
      |params| > 0 && where[|where| - 1].param == |params|
      && WellNumbered(where[..|where| - 1], params[..|params| - 1])
    else WellNumbered(where[..|where| - 1], params)
  }

  /**
   * One value more than the well-numbered conditions read: the statement
   * is refused, since the bind does not match the placeholders of its text.
   */
  lemma ExtraValueRefused<F>(where: seq<Cond<F>>, params: seq<Value>, extra: Value)
    requires WellNumbered(where, params)
    ensures !Binds(where, params + [extra])
  {
    WellNumberedBinds(where, params);
  }

  /** The highest placeholder the text references: the number of values the statement requires. */
  function Highest<F>(where: seq<Cond<F>>): (h: nat)
    ensures forall k :: 0 <= k < |where| && where[k].Bound? ==> where[k].param <= h
  {
    if where == [] then 0
    else
      var c := where[|where| - 1];
      var h0 := Highest(where[..|where| - 1]);
      assert forall k :: 0 <= k < |where| - 1 ==> where[k] == where[..|where| - 1][k];
      if c.Bound? && c.param > h0 then c.param else h0
  }

  /** A statement is accepted only when the bind supplies exactly the values its text requires. */
  predicate Binds<F>(where: seq<Cond<F>>, params: seq<Value>) {
    Highest(where) == |params|
  }

  /** Well-numbered conditions require exactly the values pushed beside them. */
  lemma {:induction false} WellNumberedBinds<F>(where: seq<Cond<F>>, params: seq<Value>)
    requires WellNumbered(where, params)
    ensures Binds(where, params)
    decreases |where|
  {
    if where != [] {
      var init := where[..|where| - 1];
      if where[|where| - 1].Bound? {
        WellNumberedBinds(init, params[..|params| - 1]);
      } else {
        WellNumberedBinds(init, params);
      }
    }
  }

  /** Binding more values leaves the meaning of conditions that do not reach them alone. */
  lemma {:induction false} DecodeExtend<F>(where: seq<Cond<F>>, params: seq<Value>, more: seq<Value>)
    requires Highest(where) <= |params|
    ensures Decode(where, params + more) == Decode(where, params)
    decreases |where|
  {
    if where != [] {
      var c := where[|where| - 1];
      DecodeExtend(where[..|where| - 1], params, more);
      if c.Bound? {
        assert At(params + more, c.param) == At(params, c.param);
      }
    }
  }

  /**
   * `if (present) { params.push(v); where.push(condition on $${params.length}) }`:
   * when present, the filter reads the value just pushed.
   */
  method PushBound<F>(present: bool, where: seq<Cond<F>>, params: seq<Value>, field: F, v: Value)
    returns (where': seq<Cond<F>>, params': seq<Value>)
    requires WellNumbered(where, params)
    ensures WellNumbered(where', params')
    ensures Decode(where', params') == if present then Decode(where, params)[field := v] else Decode(where, params)
  {
    if present {
      params' := params + [v];
      where' := where + [Bound(field, |params'|)];
      WellNumberedBinds(where, params);
      DecodeExtend(where, params, [v]);
      assert where'[..|where'| - 1] == where;
      assert params'[..|params'| - 1] == params;
    } else {
      where', params' := where, params;
    }
  }

  /** `if (present) where.push(literal condition)`: no value is bound. */
  method PushFixed<F>(present: bool, where: seq<Cond<F>>, params: seq<Value>, field: F, literal: Value)
    returns (where': seq<Cond<F>>, params': seq<Value>)
    requires WellNumbered(where, params)
    ensures WellNumbered(where', params')
    ensures Decode(where', params') == if present then Decode(where, params)[field := literal] else Decode(where, params)
  {
    params' := params;
    if present {
      where' := where + [Fixed(field, literal)];
      assert where'[..|where'| - 1] == where;
    } else {
      where' := where;
    }
  }
}
