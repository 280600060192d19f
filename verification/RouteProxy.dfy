/**
 The reverse proxy's route table, and the handler that keeps it, the function store and the active workers in step.
 */
module RouteProxy {
  import opened Types
  import opened Protocol
  import Frames
  import F = FunctionStore
  import R = Registry

  class RProxy {
    var hosts: map<string, seq<string>>

    constructor ()
      ensures hosts == map[]
    {
      hosts := map[];
    }

    method Add(name: string, ips: seq<string>) returns (ok: bool)
      modifies this
      ensures ok == (ips != [])
      ensures hosts == if ok then old(hosts)[name := ips] else old(hosts)
    {
      if |ips| == 0 {
        return false;
      }
      hosts := hosts[name := ips];
      ok := true;
    }

    method Del(name: string) returns (ok: bool)
      modifies this
      ensures ok == (name in old(hosts))
      ensures hosts == old(hosts) - {name}
    {
      if name !in hosts {
        assert hosts - {name} == hosts;
        return false;
      }
      hosts := hosts - {name};
      ok := true;
    }

    /** The lookup of `Call`: any one of the function's handlers, `choice` being the random draw. */
    method Choose(name: string, choice: nat) returns (host: Option<string>)
      requires forall n :: n in hosts ==> hosts[n] != []
      ensures host.None? <==> name !in hosts
      ensures host.Some? ==> host.value in hosts[name]
    {
      if name !in hosts {
        return None;
      }
      var handler := hosts[name];
      host := Some(handler[choice % |handler|]);
    }
  }

  /** The body of a configuration request. */
  datatype Definition = Definition(name: string, ips: seq<string>, def: FunctionDef)

  datatype Response = Done | Failed | Panicked

  /** Exactly the functions that can be called here are kept for the workers, and none is routed nowhere. */
  predicate InStep(hosts: map<string, seq<string>>, funcs: Functions)
  {
    hosts.Keys == funcs.Keys && forall n :: n in hosts ==> hosts[n] != []
  }

  /**
   The configuration handler. A request with addresses adds or replaces a function, one without removes it;
   the store follows the route table, every worker active at that moment is told, and nothing happens on an
   unknown name. An empty name kills the handler before it does anything.
   */
  method Configure(r: RProxy, store: F.Store, reg: R.Registry, d: Definition) returns (response: Response,
        told: seq<NodeId>)
    requires reg.Valid() && InStep(r.hosts, store.funcs)
    modifies r, store
    ensures InStep(r.hosts, store.funcs)
    ensures response == Panicked <==> d.name == ""
    ensures response == Done ==>
              forall id :: id in told <==> id in reg.nodes && !reg.nodes[id].local && reg.nodes[id].status == Active
    ensures response != Done ==> r.hosts == old(r.hosts) && store.funcs == old(store.funcs) && told == []
    ensures d.name != "" ==>
              var name := if d.name[0] == '/' then d.name[1..] else d.name;
              && (response == Done <==> d.ips != [] || name in old(r.hosts))
              && (d.ips != [] ==> r.hosts == old(r.hosts)[name := d.ips] && store.funcs == old(store.funcs)[name := d.def])
              && (d.ips == [] ==> r.hosts == old(r.hosts) - {name} && store.funcs == old(store.funcs) - {name})
  {
    hide Frames.OwnIds;
    told := [];
    if d.name == "" {
      return Panicked, [];
    }
    var name := d.name;
    if name[0] == '/' {
      name := name[1..];
    }
    if |d.ips| > 0 {
      var added := r.Add(name, d.ips);
      if !added {
        return Failed, [];
      }
      store.Set(name, d.def);
      told := reg.BroadcastTargets();
      response := Done;
    } else {
      var deleted := r.Del(name);
      if !deleted {
        return Failed, [];
      }
      store.Remove(name);
      told := reg.BroadcastTargets();
      response := Done;
    }
  }
}
