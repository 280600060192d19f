/** The leader's copy of the functions the management service knows. */
module FunctionStore {
  import opened Types
  import opened Protocol

  class Store {
    var funcs: Functions

    constructor ()
      ensures funcs == map[]
    {
      funcs := map[];
    }

    method Set(name: string, def: FunctionDef)
      modifies this
      ensures funcs == Apply(old(funcs), Change(name, Some(def))) == old(funcs)[name := def]
    {
      funcs := funcs[name := def];
    }

    method Remove(name: string)
      modifies this
      ensures funcs == Apply(old(funcs), Change(name, None)) == old(funcs) - {name}
    {
      funcs := funcs - {name};
    }

    /** A copy made entry by entry, in whatever order the map yields them. */
    method All() returns (out: Functions)
      ensures out == funcs
    {
      out := map[];
      var todo := funcs.Keys;
      while todo != {}
        invariant todo <= funcs.Keys && out.Keys == funcs.Keys - todo
        invariant forall k :: k in out ==> out[k] == funcs[k]
        decreases |todo|
      {
        var k :| k in todo;
        out := out[k := funcs[k]];
        todo := todo - {k};
      }
    }
  }

  /** The store after a sequence of changes. */
  function StoreAfterAll(m: Functions, cs: seq<Change>): Functions
  {
    if cs == [] then m else Apply(StoreAfterAll(m, cs[..|cs| - 1]), cs[|cs| - 1])
  }

  /** A name is bound as its last change left it: to its last definition, or to nothing after a removal. */
  lemma {:induction false} LastChangeWins(m: Functions, cs: seq<Change>, i: nat)
    requires i < |cs| && forall j :: i < j < |cs| ==> cs[j].name != cs[i].name
    ensures var m' := StoreAfterAll(m, cs);
            match cs[i].def
            case Some(def) => cs[i].name in m' && m'[cs[i].name] == def
            case None => cs[i].name !in m'
    decreases |cs|
  {
    if i < |cs| - 1 {
      LastChangeWins(m, cs[..|cs| - 1], i);
    }
  }
}
