/** The management service's upload as it runs, alone: what each failure leaves behind. */
module Manager {
  import opened Types
  import opened HotSwap

  predicate AlphaNumeric(name: string)
  {
    name != "" && forall i :: 0 <= i < |name| ==> 'a' <= name[i] <= 'z' || 'A' <= name[i] <= 'Z' || '0' <= name[i] <= '9'
  }

  /** How the call to the route table ends; only `Accepted` is a success, `Lost` includes a reply cut off. */
  datatype Post = Accepted | Lost(applied: bool)

  /** What the outside world answers during one upload. */
  datatype Outcomes = Outcomes(unpacked: bool, created: bool, hasIps: bool, started: bool, post: Post, destroyed: bool)

  class ManagementService {
    var handlers: seq<Handler>
    var functionHandlers: map<string, Hid>
    var routes: map<string, Hid>

    /** The service with no other upload or delete about. */
    ghost function View(): Service
      reads this
    {
      Service(handlers, functionHandlers, routes, None, map[], {})
    }

    ghost predicate Valid()
      reads this
    {
      Inv(View())
    }

    constructor ()
      ensures Valid() && Live(View()) && handlers == []
    {
      handlers := [];
      functionHandlers := map[];
      routes := map[];
    }

    /** The config handler's reply to this update. */
    method TellProxy(h: Hid, post: Post) returns (ok: bool)
      requires h < |handlers|
      modifies this`routes
      ensures ok == (post == Accepted && Accepts(old(View()), h))
      ensures routes == if ok || (post.Lost? && post.applied) then Routed(old(View()), h) else old(routes)
      ensures ok <==> post == Accepted && (handlers[h].hasIps || handlers[h].name in old(routes))
      ensures routes ==
              if !ok && !(post.Lost? && post.applied) then old(routes)
              else if handlers[h].hasIps then old(routes)[handlers[h].name := h] else old(routes) - {handlers[h].name}
    {
      match post
      case Lost(applied) =>
        ok := false;
        if applied {
          routes := if handlers[h].hasIps then routes[handlers[h].name := h] else routes - {handlers[h].name};
        }
      case Accepted =>
        ok := handlers[h].hasIps || handlers[h].name in routes;
        if ok {
          routes := if handlers[h].hasIps then routes[handlers[h].name := h] else routes - {handlers[h].name};
        }
    }

    /**
     One upload. It succeeds exactly when every step does. Only then is the previous handler destroyed and the
     function routed to the new one (or, without addresses, not at all). Whatever fails, no handler that was
     there before is lost, the table names the new handler as soon as it is created, started or not, and the
     route is the old one or, once updated, leads to the new handler. Routes stay live throughout.
     */
    method CreateFunction(name: string, o: Outcomes) returns (ok: bool)
      requires Valid() && Live(View())
      modifies this
      ensures Valid() && Live(View())
      ensures functionHandlers == if Created(name, o) then old(functionHandlers)[name := |old(handlers)|] else old(functionHandlers)
      ensures routes == if !Rerouted(name, o, name in old(routes)) then old(routes)
                        else if o.hasIps then old(routes)[name := |old(handlers)|] else old(routes) - {name}
      ensures handlers ==
              (if ok && name in old(functionHandlers) then Retired(old(handlers), old(functionHandlers)[name]) else old(handlers))
              + (if Created(name, o) then [Handler(name, o.hasIps, o.started, false)] else [])
      ensures ok <==>
              && name != ""
              && (forall i :: 0 <= i < |name| ==> 'a' <= name[i] <= 'z' || 'A' <= name[i] <= 'Z' || '0' <= name[i] <= '9')
              && o.unpacked && o.created && o.started && o.post == Accepted && (o.hasIps || name in old(routes))
              && (name in old(functionHandlers) ==> o.destroyed)
    {
      hide Inv, Live;
      if !AlphaNumeric(name) || !o.unpacked {
        return false;
      }
      var oldHandler := if name in functionHandlers then Some(functionHandlers[name]) else None;
      if !o.created {
        return false;
      }
      var fh := |handlers|;
      Creates(View(), name, o.hasIps);
      handlers := handlers + [Handler(name, o.hasIps, false, false)];
      functionHandlers := functionHandlers[name := fh];
      if !o.started {
        return false;
      }
      Starts(View(), fh);
      handlers := handlers[fh := handlers[fh].(started := true)];
      Routes(View(), fh);
      var told := TellProxy(fh, o.post);
      if !told {
        return false;
      }
      if oldHandler.Some? {
        if !o.destroyed {
          return false;
        }
        Retires(View(), oldHandler.value, fh);
        handlers := handlers[oldHandler.value := handlers[oldHandler.value].(destroyed := true)];
      }
      ok := true;
    }
  }

  /** How far an upload gets, in what the outside world answered. */
  lemma StagesOf(name: string, o: Outcomes, routed: bool)
    ensures Created(name, o) <==>
            && name != ""
            && (forall i :: 0 <= i < |name| ==> 'a' <= name[i] <= 'z' || 'A' <= name[i] <= 'Z' || '0' <= name[i] <= '9')
            && o.unpacked && o.created
    ensures Rerouted(name, o, routed) <==>
            Created(name, o) && o.started && if o.post.Lost? then o.post.applied else o.hasIps || routed
  {
  }

  /** The handlers once this one is gone. */
  function Retired(handlers: seq<Handler>, prior: Hid): seq<Handler>
  {
    if prior < |handlers| then handlers[prior := handlers[prior].(destroyed := true)] else handlers
  }

  /** The upload got as far as a handler in the table. */
  predicate Created(name: string, o: Outcomes)
  {
    AlphaNumeric(name) && o.unpacked && o.created
  }

  /** The route table took the update and said so. */
  predicate Confirmed(name: string, o: Outcomes, routed: bool)
  {
    Created(name, o) && o.started && o.post == Accepted && (o.hasIps || routed)
  }

  /** The route table took the update, whether or not the upload learned of it. */
  predicate Rerouted(name: string, o: Outcomes, routed: bool)
  {
    Confirmed(name, o, routed) || (Created(name, o) && o.started && o.post.Lost? && o.post.applied)
  }

  // ---------- the stages, on a service with nobody else about ----------

  predicate Alone(s: Service)
  {
    s.workers == map[] && s.late == {}
  }

  lemma Creates(s: Service, name: string, hasIps: bool)
    requires Alone(s) && Inv(s) && Live(s)
    ensures name in s.table ==> s.table[name] < |s.handlers| && s.handlers[s.table[name]].name == name
    ensures var s' := s.(handlers := s.handlers + [Handler(name, hasIps, false, false)], table := s.table[name := |s.handlers|]);
            Inv(s') && Live(s')
  {
    assert name in s.table ==> Of(s.handlers, s.table[name], name);
  }

  lemma Starts(s: Service, h: Hid)
    requires Alone(s) && Inv(s) && Live(s) && h < |s.handlers|
    ensures var s' := s.(handlers := s.handlers[h := s.handlers[h].(started := true)]); Inv(s') && Live(s')
  {
  }

  lemma Routes(s: Service, h: Hid)
    requires Alone(s) && Inv(s) && Live(s) && h < |s.handlers|
    ensures s.handlers[h].started && !s.handlers[h].destroyed ==>
              var s' := s.(routes := Routed(s, h)); Inv(s') && Live(s')
  {
  }

  /** Destroying a handler of the function that is routed elsewhere, if at all. */
  lemma Retires(s: Service, h: Hid, made: Hid)
    requires Alone(s) && Inv(s) && Live(s) && h < |s.handlers| && made < |s.handlers| && h != made
    requires s.handlers[made].name == s.handlers[h].name
    ensures (s.handlers[h].name in s.routes ==> s.routes[s.handlers[h].name] == made) ==>
              var s' := s.(handlers := s.handlers[h := s.handlers[h].(destroyed := true)]); Inv(s') && Live(s')
  {
    if s.handlers[h].name in s.routes ==> s.routes[s.handlers[h].name] == made {
      forall name | name in s.routes ensures s.routes[name] != h {
        assert Of(s.handlers, s.routes[name], name);
      }
    }
  }
}
