/**
 The builder block every generated `Variables.build` runs, stated once
 for any variables record `V`, setter call `S` and property name `F`.

 `build` starts from local copies of the variables, applies the caller's
 block to a `Builder` object whose property setters overwrite those
 copies and whose property getters throw, and then packs the copies into
 a `Variables` record. The block is modelled as the sequence of property
 accesses it makes, in order; `assign` is the effect of one setter call.
 */
module BuilderBlock {
  import opened Wrappers
  import opened DataConnect

  /** One property access made by the builder block. */
  datatype Access<S, F> = SetterCall(setter: S) | GetterCall(field: F)

  predicate HasGet<S, F>(block: seq<Access<S, F>>) {
    exists i :: 0 <= i < |block| && block[i].GetterCall?
  }

  /** Whether some setter call of the block writes property `f`. */
  predicate Writes<S, F(==)>(fieldOf: S -> F, block: seq<Access<S, F>>, f: F) {
    exists i :: 0 <= i < |block| && block[i].SetterCall? && fieldOf(block[i].setter) == f
  }

  /** Runs the block's calls in order from `v`; the first getter call
      throws and ends the block. */
  function RunBlock<V, S, F>(assign: (V, S) -> V, v: V, block: seq<Access<S, F>>): (r: Result<V, BuildError>)
    ensures r.Failure? <==> HasGet(block)
    ensures r.Failure? ==> r.error == UnsupportedOperation(GetterUnsupported)
    decreases |block|
  {
    if block == [] then Success(v)
    else
      var prefix, op := block[..|block| - 1], block[|block| - 1];
      assert block == prefix + [op];
      match RunBlock(assign, v, prefix)
      case Failure(e) => Failure(e)
      case Success(w) =>
        if op.GetterCall? then Failure(UnsupportedOperation(GetterUnsupported))
        else Success(assign(w, op.setter))
  }

  /** The last setter call of the block that writes `f`, if there is one:
      the reference for what `build` leaves in `f`. */
  function LastWrite<S, F(==)>(fieldOf: S -> F, block: seq<Access<S, F>>, f: F): (last: Option<S>)
    ensures last.Some? <==> Writes(fieldOf, block, f)
    ensures last.Some? ==> fieldOf(last.value) == f
    decreases |block|
  {
    if block == [] then None
    else
      var prefix, op := block[..|block| - 1], block[|block| - 1];
      assert block == prefix + [op];
      assert forall i :: 0 <= i < |prefix| ==> prefix[i] == block[i];
      if op.SetterCall? && fieldOf(op.setter) == f then Some(op.setter)
      else LastWrite(fieldOf, prefix, f)
  }

  lemma RunBlockSnoc<V, S, F>(assign: (V, S) -> V, v: V, block: seq<Access<S, F>>, op: Access<S, F>)
    ensures RunBlock(assign, v, block + [op])
            == match RunBlock(assign, v, block)
               case Failure(e) => Failure(e)
               case Success(w) =>
                 if op.GetterCall? then Failure(UnsupportedOperation(GetterUnsupported))
                 else Success(assign(w, op.setter))
  {
    assert (block + [op])[..|block|] == block;
  }

  /** Running two blocks one after the other is running their
      concatenation; a getter in the first skips the second. */
  lemma {:induction false} RunBlockAppend<V, S, F>(assign: (V, S) -> V, v: V, p: seq<Access<S, F>>, q: seq<Access<S, F>>)
    ensures RunBlock(assign, v, p + q)
            == match RunBlock(assign, v, p)
               case Failure(e) => Failure(e)
               case Success(w) => RunBlock(assign, w, q)
    decreases |q|
  {
    if q == [] {
      assert p + q == p;
    } else {
      var init, op := q[..|q| - 1], q[|q| - 1];
      assert q == init + [op];
      assert p + q == (p + init) + [op];
      RunBlockAppend(assign, v, p, init);
      RunBlockSnoc(assign, v, p + init, op);
      if RunBlock(assign, v, p).Success? {
        RunBlockSnoc(assign, RunBlock(assign, v, p).value, init, op);
      }
    }
  }

  /** Two pieces of block that have the same effect from every state can
      replace each other anywhere in a block. */
  lemma ReplaceInBlock<V, S, F>(assign: (V, S) -> V, v: V,
                                before: seq<Access<S, F>>, xs: seq<Access<S, F>>, ys: seq<Access<S, F>>,
                                after: seq<Access<S, F>>)
    requires forall w :: RunBlock(assign, w, xs) == RunBlock(assign, w, ys)
    ensures RunBlock(assign, v, before + xs + after) == RunBlock(assign, v, before + ys + after)
  {
    RunBlockAppend(assign, v, before, xs);
    RunBlockAppend(assign, v, before, ys);
    if RunBlock(assign, v, before).Success? {
      var u := RunBlock(assign, v, before).value;
      assert RunBlock(assign, u, xs) == RunBlock(assign, u, ys);
    }
    assert RunBlock(assign, v, before + xs) == RunBlock(assign, v, before + ys);
    RunBlockAppend(assign, v, before + xs, after);
    RunBlockAppend(assign, v, before + ys, after);
  }

  /** Two setter calls in a row. */
  lemma RunTwoSetters<V, S, F>(assign: (V, S) -> V, w: V, a: Access<S, F>, b: Access<S, F>)
    requires a.SetterCall? && b.SetterCall?
    ensures RunBlock(assign, w, [a, b]) == Success(assign(assign(w, a.setter), b.setter))
  {
    RunBlockSnoc(assign, w, [], a);
    assert [] + [a] == [a];
    RunBlockSnoc(assign, w, [a], b);
    assert [a] + [b] == [a, b];
  }

  /** After a block with no getter, every property holds the value its
      last setter call wrote, or its starting value if no call wrote it.
      `read` and `written` give the value of a property of a record and
      the value a setter call stores; the first two requirements say that
      `assign` writes its own property and no other. */
  lemma {:induction false} BuiltIsLastWrite<V, S, F, X>(
      assign: (V, S) -> V, read: (V, F) -> X, fieldOf: S -> F, written: S -> X,
      v: V, block: seq<Access<S, F>>, f: F)
    requires forall w, s :: read(assign(w, s), fieldOf(s)) == written(s)
    requires forall w, s, g :: g != fieldOf(s) ==> read(assign(w, s), g) == read(w, g)
    requires !HasGet(block)
    ensures read(RunBlock(assign, v, block).value, f)
            == match LastWrite(fieldOf, block, f)
               case Some(s) => written(s)
               case None => read(v, f)
    decreases |block|
  {
    if block != [] {
      var prefix, op := block[..|block| - 1], block[|block| - 1];
      assert block == prefix + [op];
      assert forall i :: 0 <= i < |prefix| ==> prefix[i] == block[i];
      assert !HasGet(prefix);
      BuiltIsLastWrite(assign, read, fieldOf, written, v, prefix, f);
      match RunBlock(assign, v, prefix)
      case Success(w) =>
        var t := op.setter;
        assert RunBlock(assign, v, block) == Success(assign(w, t));
        if fieldOf(t) == f {
          assert read(assign(w, t), fieldOf(t)) == written(t);
        } else {
          assert read(assign(w, t), f) == read(w, f);
        }
    }
  }
}
