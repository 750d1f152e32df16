/**
 * The variable mapping of the canonical compiler
 * (projects/panamint/src/profile/runtime.rs:84-131): two scope stacks, one
 * giving each referenced local definition its memo slot and one holding the
 * lowered definitions, plus the next free slot. The older engine
 * (src/profile/runtime.rs:33-87) has the same mapping over its own
 * expression type, hence the type parameter `E`.
 */
module PanamintVariables {
  import opened Options
  import opened PanamintScope

  /** The contents of a `VariableMapping`: both scope stacks and the next free slot. */
  datatype Mapping<E> = Mapping(ids: seq<map<string, nat>>, defs: seq<map<string, E>>, nextId: nat)

  /** `VariableMapping::new`: one empty map in each stack, slot counter at zero. */
  function EmptyMapping<E>(): Mapping<E>
  {
    Mapping([map[]], [map[]], 0)
  }

  /** Both stacks have an innermost map (the source panics otherwise). */
  predicate Open<E>(st: Mapping<E>)
  {
    st.ids != [] && st.defs != []
  }

  /** `b` is at least as deep and has used at least as many slots as `a`. */
  predicate Extends<E>(a: Mapping<E>, b: Mapping<E>)
  {
    |b.ids| >= |a.ids| && |b.defs| >= |a.defs| && b.nextId >= a.nextId
  }

  /** `a` and `b` have the same stack depths. */
  predicate Balanced<E>(a: Mapping<E>, b: Mapping<E>)
  {
    |b.ids| == |a.ids| && |b.defs| == |a.defs|
  }

  function PushVars<E>(st: Mapping<E>): Mapping<E>
  {
    Mapping(st.ids + [map[]], st.defs + [map[]], st.nextId)
  }

  function PopVars<E>(st: Mapping<E>): Mapping<E>
    requires Open(st)
  {
    Mapping(st.ids[..|st.ids| - 1], st.defs[..|st.defs| - 1], st.nextId)
  }

  /** `add_variable`: the next slot, bound in the innermost id map. */
  function WithVariable<E>(st: Mapping<E>, ident: string): (r: (nat, Mapping<E>))
    requires st.ids != []
  {
    (st.nextId, st.(ids := SetTop(st.ids, ident, st.nextId), nextId := st.nextId + 1))
  }

  /** `get_or_assign_id`: the visible slot of `ident`, or a new one. */
  function IdOf<E>(st: Mapping<E>, ident: string): (r: (nat, Mapping<E>))
    requires st.ids != []
  {
    match Lookup(st.ids, ident)
    case Some(id) => (id, st)
    case None => WithVariable(st, ident)
  }

  function WithDefinition<E>(st: Mapping<E>, ident: string, e: E): Mapping<E>
    requires st.defs != []
  {
    st.(defs := SetTop(st.defs, ident, e))
  }

  class VariableMapping<E> {
    /** ident -> slot */
    const ids: NestedScope<nat>
    /** ident -> definition */
    const defs: NestedScope<E>
    var nextId: nat

    /** The two stacks are different objects, so updating one leaves the other alone. */
    predicate Separate()
    {
      ids as object != defs as object
    }

    function State(): Mapping<E>
      reads this, ids, defs
    {
      Mapping(ids.frames, defs.frames, nextId)
    }

    constructor ()
      ensures fresh(ids) && fresh(defs) && Separate()
      ensures State() == EmptyMapping()
    {
      ids := new NestedScope<nat>.Empty();
      defs := new NestedScope<E>.Empty();
      nextId := 0;
    }

    /** `clear`: returns the current contents and resets to a new mapping. */
    method Clear() returns (snapshot: Mapping<E>)
      requires Separate()
      modifies this, ids, defs
      ensures snapshot == old(State()) && State() == EmptyMapping()
    {
      snapshot := State();
      ids.frames := [map[]];
      defs.frames := [map[]];
      nextId := 0;
    }

    method Push()
      requires Separate()
      modifies ids, defs
      ensures State() == PushVars(old(State()))
    {
      ids.Push();
      defs.Push();
    }

    method Pop()
      requires Separate()
      requires Open(State())
      modifies ids, defs
      ensures State() == PopVars(old(State()))
    {
      var _ := ids.Pop();
      var _ := defs.Pop();
    }

    method AddVariable(ident: string) returns (id: nat)
      requires Separate()
      requires ids.frames != []
      modifies this, ids
      ensures (id, State()) == WithVariable(old(State()), ident)
    {
      id := nextId;
      ids.Set(ident, id);
      nextId := nextId + 1;
    }

    method GetOrAssignId(ident: string) returns (id: nat)
      requires Separate()
      requires ids.frames != []
      modifies this, ids
      ensures (id, State()) == IdOf(old(State()), ident)
    {
      var found := ids.Get(ident);
      match found {
        case Some(i) => id := i;
        case None => id := AddVariable(ident);
      }
    }

    method AddDefinition(ident: string, e: E)
      requires Separate()
      requires defs.frames != []
      modifies defs
      ensures State() == WithDefinition(old(State()), ident, e)
    {
      defs.Set(ident, e);
    }

    function GetDefinition(ident: string): Option<E>
      reads defs
    {
      defs.Get(ident)
    }
  }
}
