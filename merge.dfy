/**
 * `_merge(...)`: a shallow, left-to-right merge of option objects into a new
 * object. chart.js, index.js and app/scripts/bubblechart.js carry the same
 * function word for word.
 */
module Merge {

  /**
   * The object `_merge(args[0], ..., args[n-1])` returns: every argument's own
   * properties copied over those of the arguments before it. An `undefined`
   * argument is an empty map.
   */
  function MergeAll<V>(args: seq<map<string, V>>): map<string, V>
    decreases |args|
  {
    if args == [] then map[] else MergeAll(args[..|args| - 1]) + args[|args| - 1]
  }

  /** The outer loop copies the arguments one after another, the inner loop one key at a time. */
  method Merge<V>(args: seq<map<string, V>>) returns (obj: map<string, V>)
    ensures obj == MergeAll(args)
  {
    obj := map[];
    for i := 0 to |args|
      invariant obj == MergeAll(args[..i])
    {
      var arg := args[i];
      var todo := arg.Keys;
      while todo != {}
        invariant todo <= arg.Keys
        invariant obj.Keys == MergeAll(args[..i]).Keys + (arg.Keys - todo)
        invariant forall k :: k in obj ==>
          obj[k] == if k in arg && k !in todo then arg[k] else MergeAll(args[..i])[k]
        decreases todo
      {
        var key :| key in todo;
        obj := obj[key := arg[key]];
        todo := todo - {key};
      }
      assert args[..i + 1][..i] == args[..i];
      assert obj == MergeAll(args[..i]) + arg;
    }
    assert args[..|args|] == args;
  }

  /** The merged object's keys are exactly the keys that some argument has. */
  lemma {:induction false} MergeAllKeys<V>(args: seq<map<string, V>>, k: string)
    ensures k in MergeAll(args) <==> exists i :: 0 <= i < |args| && k in args[i]
    decreases |args|
  {
    if args != [] {
      var init := args[..|args| - 1];
      MergeAllKeys(init, k);
      if k in MergeAll(init) {
        var i :| 0 <= i < |init| && k in init[i];
        assert args[i] == init[i];
      }
      if exists i :: 0 <= i < |args| && k in args[i] {
        var i :| 0 <= i < |args| && k in args[i];
        if i < |args| - 1 {
          assert init[i] == args[i];
        }
      }
    }
  }

  /**
   * Each key takes its value from the last argument that has it. Values are
   * copied whole, so a nested object (such as `margin`) replaces the earlier one
   * instead of being merged into it.
   */
  lemma {:induction false} MergeAllLastWins<V>(args: seq<map<string, V>>, i: nat, k: string)
    requires i < |args| && k in args[i]
    requires forall j :: i < j < |args| ==> k !in args[j]
    ensures k in MergeAll(args) && MergeAll(args)[k] == args[i][k]
    decreases |args|
  {
    if i < |args| - 1 {
      var init := args[..|args| - 1];
      assert init[i] == args[i];
      MergeAllLastWins(init, i, k);
    }
  }

  /**
   * Merging the result of a merge with further arguments equals merging all
   * arguments at once, so repeated `update` calls that store their merge
   * (`options = _merge(options, newOpts)`) accumulate every update in order.
   */
  lemma {:induction false} MergeAllNested<V>(a: seq<map<string, V>>, b: seq<map<string, V>>)
    ensures MergeAll([MergeAll(a)] + b) == MergeAll(a + b)
    decreases |b|
  {
    if b != [] {
      var b' := b[..|b| - 1];
      MergeAllNested(a, b');
      assert ([MergeAll(a)] + b)[..|b|] == [MergeAll(a)] + b';
      assert (a + b)[..|a + b| - 1] == a + b';
    } else {
      assert [MergeAll(a)][..0] == [];
      assert a + b == a;
    }
  }

  /** A single argument is copied: `_merge(o)` has the same properties as `o`. */
  lemma MergeAllCopy<V>(m: map<string, V>)
    ensures MergeAll([m]) == m
  {
  }

  /** `_merge(a, b)` is the right-biased union of the two. */
  lemma MergeAllPair<V>(a: map<string, V>, b: map<string, V>)
    ensures MergeAll([a, b]) == a + b
  {
    assert [a, b][..1] == [a];
    MergeAllCopy(a);
  }
}
