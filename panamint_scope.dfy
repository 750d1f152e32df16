/**
 * The compiler's scope stack (projects/panamint/src/profile/runtime.rs:8-34):
 * a stack of maps from identifier to binding, searched from the innermost
 * (last) map outwards, so inner bindings shadow outer ones.
 */
module PanamintScope {
  import opened Options

  /** The binding of `k` in the innermost frame that has one. */
  function Lookup<V>(frames: seq<map<string, V>>, k: string): (r: Option<V>)
    ensures r.Some? <==> exists i :: 0 <= i < |frames| && k in frames[i]
    ensures r.Some? ==>
      exists i :: 0 <= i < |frames| && k in frames[i] && frames[i][k] == r.value &&
        forall j :: i < j < |frames| ==> k !in frames[j]
    decreases |frames|
  {
    if frames == [] then None
    else if k in frames[|frames| - 1] then Some(frames[|frames| - 1][k])
    else Lookup(frames[..|frames| - 1], k)
  }

  /** The frames after binding `k` to `v` in the innermost frame. */
  function SetTop<V>(frames: seq<map<string, V>>, k: string, v: V): (r: seq<map<string, V>>)
    requires frames != []
    ensures |r| == |frames| && r[..|r| - 1] == frames[..|frames| - 1]
    ensures r[|r| - 1] == frames[|frames| - 1][k := v]
  {
    frames[..|frames| - 1] + [frames[|frames| - 1][k := v]]
  }

  class NestedScope<V> {
    /** The maps of the stack, outermost first. */
    var frames: seq<map<string, V>>

    /** `NestedScope::empty`: one empty map. */
    constructor Empty()
      ensures frames == [map[]]
    {
      frames := [map[]];
    }

    method Push()
      modifies this
      ensures frames == old(frames) + [map[]]
    {
      frames := frames + [map[]];
    }

    /** Removes and returns the innermost map; the source panics on an empty stack. */
    method Pop() returns (top: map<string, V>)
      requires frames != []
      modifies this
      ensures old(frames) == frames + [top]
    {
      top := frames[|frames| - 1];
      frames := frames[..|frames| - 1];
    }

    /** Inserts into the innermost map only; the source panics on an empty stack. */
    method Set(k: string, v: V)
      requires frames != []
      modifies this
      ensures frames == SetTop(old(frames), k, v)
    {
      frames := SetTop(frames, k, v);
    }

    function Get(k: string): Option<V>
      reads this
    {
      Lookup(frames, k)
    }
  }

  /** A binding made by `set` is what `get` sees next, and no other key changes. */
  lemma {:induction false} LookupSetTop<V>(frames: seq<map<string, V>>, k: string, v: V, k': string)
    requires frames != []
    ensures Lookup(SetTop(frames, k, v), k) == Some(v)
    ensures k' != k ==> Lookup(SetTop(frames, k, v), k') == Lookup(frames, k')
  {
    var r := SetTop(frames, k, v);
    assert r[..|r| - 1] == frames[..|frames| - 1];
  }

  /** Pushing an empty map changes no lookup. */
  lemma {:induction false} LookupPush<V>(frames: seq<map<string, V>>, k: string)
    ensures Lookup(frames + [map[]], k) == Lookup(frames, k)
  {
    assert (frames + [map[]])[..|frames|] == frames;
  }

  /**
   * Popping discards exactly the innermost map: keys it bound now resolve
   * further out, every other key resolves as before.
   */
  lemma {:induction false} LookupPop<V>(frames: seq<map<string, V>>, top: map<string, V>, k: string)
    ensures k in top ==> Lookup(frames + [top], k) == Some(top[k])
    ensures k !in top ==> Lookup(frames + [top], k) == Lookup(frames, k)
  {
    assert (frames + [top])[..|frames|] == frames;
  }
}
