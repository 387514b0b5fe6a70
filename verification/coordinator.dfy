/**
 * The service control coordinator: the create, update, scale, rollback and
 * batch delete handlers of the service controller, as transitions of an
 * object holding the audit log and the trace of orchestration calls.
 * The orchestrator, the registry store, request binding and the spec
 * normalizer are parameters whose answers the model takes as given.
 */
module Coordinator {
  import opened Outcomes
  import Strings
  import Strconv

  /** The audited lifecycle actions. */
  datatype Action = Create | Update | Scale | Rollback | Delete

  /** One audit record: what was done to which service. */
  datatype Event = Event(action: Action, name: string)

  /**
   * The parts of a service spec this core reads or writes. The rest of the
   * spec (networks, mounts, constraints, ...) is carried along by the
   * normalizer and the orchestrator and is not modelled.
   */
  datatype ServiceInfo = ServiceInfo(name: string, image: string, registry: string, registryAuth: string)

  /** A registry record: its URL and its encoded credentials. */
  datatype Registry = Registry(url: string, encodedAuth: string)

  /** The answer of a registry lookup: an error, no record, or the record. */
  datatype Lookup = LookupFailed(message: string) | NoRecord | Found(registry: Registry)

  type RegistryStore = string -> Lookup

  /** The orchestration calls the coordinator makes. */
  datatype Call =
    | ServiceCreate(info: ServiceInfo)
    | ServiceUpdate(info: ServiceInfo)
    | ServiceScale(service: string, replicas: nat)
    | ServiceRollback(service: string)
    | ServiceRemove(service: string)

  /** A call as it was made, with the error it returned, if any. */
  datatype Attempt = Attempt(call: Call, failure: Option<string>)

  /**
   * The orchestrator: its answer to a call, which may depend on every call
   * made before it. `None` is success, `Some(message)` a failure.
   */
  type Orchestrator = (seq<Attempt>, Call) -> Option<string>

  /** How a handler fails. */
  datatype Error =
    | BindFailed(message: string)
    | RegistryLoadFailed(cause: string)
    | RegistryMissing
    | InvalidCount(parseError: Strconv.NumError)
    | Upstream(message: string)

  datatype Outcome = Success | Failure(error: Error)

  /** The audit record a successful call produces. */
  function EventOf(call: Call): (e: Event)
    ensures call.ServiceCreate? ==> e == Event(Create, call.info.name)
    ensures call.ServiceUpdate? ==> e == Event(Update, call.info.name)
    ensures call.ServiceScale? ==> e == Event(Scale, call.service)
    ensures call.ServiceRollback? ==> e == Event(Rollback, call.service)
    ensures call.ServiceRemove? ==> e == Event(Delete, call.service)
  {
    match call
    case ServiceCreate(info) => Event(Create, info.name)
    case ServiceUpdate(info) => Event(Update, info.name)
    case ServiceScale(service, _) => Event(Scale, service)
    case ServiceRollback(service) => Event(Rollback, service)
    case ServiceRemove(service) => Event(Delete, service)
  }

  /** The audit log a trace of calls should have produced: one record per successful call, in order. */
  function AuditOf(trace: seq<Attempt>): seq<Event>
  {
    if trace == [] then []
    else
      var last := trace[|trace| - 1];
      AuditOf(trace[..|trace| - 1]) + (if last.failure.None? then [EventOf(last.call)] else [])
  }

  /** A successful call adds its record to the audit; a failed one adds nothing. */
  lemma AuditOfAppend(trace: seq<Attempt>, a: Attempt)
    ensures AuditOf(trace + [a]) == AuditOf(trace) + (if a.failure.None? then [EventOf(a.call)] else [])
  {
  }

  /** Never more records than calls. */
  lemma {:induction false} AuditOfBounded(trace: seq<Attempt>)
    ensures |AuditOf(trace)| <= |trace|
  {
    if trace != [] {
      AuditOfBounded(trace[..|trace| - 1]);
    }
  }

  /** A trace of failed calls leaves no audit record. */
  lemma {:induction false} AuditOfFailures(trace: seq<Attempt>)
    requires forall i :: 0 <= i < |trace| ==> trace[i].failure.Some?
    ensures AuditOf(trace) == []
  {
    if trace != [] {
      AuditOfFailures(trace[..|trace| - 1]);
    }
  }

  /**
   * The spec the create handler sends: when a registry is named, its record
   * must be found, and the image is then prefixed with the registry's URL
   * and a slash and the registry's credentials are attached.
   */
  function CreateSpec(info: ServiceInfo, registries: RegistryStore): (r: Result<ServiceInfo, Error>)
    ensures r.Ok? <==> info.registry == "" || registries(info.registry).Found?
    ensures r.Ok? ==> r.value.name == info.name && r.value.registry == info.registry
    ensures r.Ok? && info.registry == "" ==> r.value == info
    ensures r.Ok? && info.registry != "" ==>
      var reg := registries(info.registry).registry;
      r.value.image == reg.url + "/" + info.image && r.value.registryAuth == reg.encodedAuth
    ensures info.registry != "" && registries(info.registry).LookupFailed? ==>
      r == Err(RegistryLoadFailed(registries(info.registry).message))
    ensures info.registry != "" && registries(info.registry).NoRecord? ==> r == Err(RegistryMissing)
  {
    if info.registry == "" then Ok(info)
    else
      match registries(info.registry)
      case LookupFailed(message) => Err(RegistryLoadFailed(message))
      case NoRecord => Err(RegistryMissing)
      case Found(reg) => Ok(info.(image := reg.url + "/" + info.image, registryAuth := reg.encodedAuth))
  }

  /** The original image can be read back from the rewritten one by dropping the registry URL and the slash. */
  lemma CreateSpecKeepsImage(info: ServiceInfo, registries: RegistryStore)
    requires info.registry != "" && registries(info.registry).Found?
    ensures var url := registries(info.registry).registry.url;
      var image := CreateSpec(info, registries).value.image;
      |image| == |url| + 1 + |info.image| && image[..|url|] == url && image[|url|] == '/' &&
      image[|url| + 1..] == info.image
  {
  }

  /** The spec the update handler sends: the bound body, renamed after the path, then normalized. */
  function UpdateSpec(body: ServiceInfo, path: string, normalize: ServiceInfo -> ServiceInfo): ServiceInfo
  {
    normalize(body.(name := path))
  }

  /** Update cannot rename: whatever name the body carried, a normalizer that keeps names sends the path's name. */
  lemma UpdateSpecForcesName(body: ServiceInfo, path: string, normalize: ServiceInfo -> ServiceInfo)
    requires forall info :: normalize(info).name == info.name
    ensures UpdateSpec(body, path, normalize).name == path
  {
  }

  /** The delete records for `names`, in order. */
  function DeleteEvents(names: seq<string>): (events: seq<Event>)
    ensures |events| == |names|
    ensures forall i :: 0 <= i < |names| ==> events[i] == Event(Delete, names[i])
  {
    seq(|names|, i requires 0 <= i < |names| => Event(Delete, names[i]))
  }

  /**
   * `after` is `before` followed by one removal per name, in order, each
   * answered by the orchestrator given everything called before it.
   */
  predicate RemovedInOrder(before: seq<Attempt>, after: seq<Attempt>, names: seq<string>, docker: Orchestrator)
  {
    |after| == |before| + |names| && after[..|before|] == before &&
    forall i :: 0 <= i < |names| ==>
      after[|before| + i] == Attempt(ServiceRemove(names[i]), docker(after[..|before| + i], ServiceRemove(names[i])))
  }

  /** One more removal, answered by the orchestrator given the trace so far, extends the batch by one name. */
  lemma RemovedInOrderStep(before: seq<Attempt>, mid: seq<Attempt>, names: seq<string>, name: string, docker: Orchestrator)
    requires RemovedInOrder(before, mid, names, docker)
    ensures var a := Attempt(ServiceRemove(name), docker(mid, ServiceRemove(name)));
      RemovedInOrder(before, mid + [a], names + [name], docker)
  {
    var a := Attempt(ServiceRemove(name), docker(mid, ServiceRemove(name)));
    var after := mid + [a];
    assert after[..|mid|] == mid;
    assert after[..|before|] == mid[..|before|];
    var all := names + [name];
    forall i | 0 <= i < |all|
      ensures after[|before| + i] == Attempt(ServiceRemove(all[i]), docker(after[..|before| + i], ServiceRemove(all[i])))
    {
      if i < |names| {
        assert after[..|before| + i] == mid[..|before| + i];
      }
    }
  }

  class ServiceController {
    /** The audit log, append-only. */
    var events: seq<Event>
    /** Every orchestration call made, with its answer. */
    var trace: seq<Attempt>

    /** The audit log holds exactly one record per successful call, in call order. */
    ghost predicate Valid()
      reads this
    {
      events == AuditOf(trace)
    }

    constructor ()
      ensures Valid() && events == [] && trace == []
    {
      events := [];
      trace := [];
    }

    /**
     * Makes `call`, remembering it with its answer, and, if it succeeded,
     * appends `EventOf(call)` to the audit log: the shape of every mutating
     * handler (orchestration call, then an audit record on success).
     */
    method InvokeAudited(call: Call, docker: Orchestrator) returns (failure: Option<string>)
      requires Valid()
      modifies this
      ensures Valid()
      ensures failure == docker(old(trace), call)
      ensures trace == old(trace) + [Attempt(call, failure)]
      ensures events == old(events) + (if failure.None? then [EventOf(call)] else [])
    {
      failure := docker(trace, call);
      AuditOfAppend(trace, Attempt(call, failure));
      trace := trace + [Attempt(call, failure)];
      if failure.None? {
        events := events + [EventOf(call)];
      }
    }

    /**
     * Batch delete: `namesField` split on commas, each name removed in
     * order; the first failure ends the batch and is reported.
     */
    method Delete(namesField: string, docker: Orchestrator) returns (r: Outcome)
      requires Valid()
      modifies this
      ensures Valid()
      ensures var names := Strings.Split(namesField, ',');
        var n := |trace| - |old(trace)|;
        1 <= n <= |names| &&
        RemovedInOrder(old(trace), trace, names[..n], docker) &&
        (forall i :: |old(trace)| <= i < |trace| - 1 ==> trace[i].failure.None?) &&
        if trace[|trace| - 1].failure.None? then
          n == |names| && r == Success && events == old(events) + DeleteEvents(names)
        else
          r == Failure(Upstream(trace[|trace| - 1].failure.value)) &&
          events == old(events) + DeleteEvents(names[..n - 1])
    {
      var names := Strings.Split(namesField, ',');
      var k := 0;
      while k < |names|
        invariant 0 <= k <= |names|
        invariant Valid()
        invariant RemovedInOrder(old(trace), trace, names[..k], docker)
        invariant forall i :: |old(trace)| <= i < |trace| ==> trace[i].failure.None?
        invariant events == old(events) + DeleteEvents(names[..k])
      {
        var name := names[k];
        ghost var before := trace;
        var failure := InvokeAudited(ServiceRemove(name), docker);
        RemovedInOrderStep(old(trace), before, names[..k], name, docker);
        assert names[..k + 1] == names[..k] + [name];
        if failure.Some? {
          return Failure(Upstream(failure.value));
        }
        k := k + 1;
      }
      r := Success;
      assert names[..k] == names;
    }

    /**
     * Create: a bind failure or a registry that cannot be resolved ends the
     * request before any call; otherwise the (rewritten) spec is created
     * and, on success, recorded under its name.
     */
    method Create(bound: Result<ServiceInfo, string>, normalize: ServiceInfo -> ServiceInfo,
                  registries: RegistryStore, docker: Orchestrator) returns (r: Outcome)
      requires Valid()
      modifies this
      ensures Valid()
      ensures bound.Err? ==> r == Failure(BindFailed(bound.error)) && trace == old(trace) && events == old(events)
      ensures bound.Ok? && CreateSpec(normalize(bound.value), registries).Err? ==>
        r == Failure(CreateSpec(normalize(bound.value), registries).error) &&
        trace == old(trace) && events == old(events)
      ensures bound.Ok? && CreateSpec(normalize(bound.value), registries).Ok? ==>
        var spec := CreateSpec(normalize(bound.value), registries).value;
        var failure := docker(old(trace), ServiceCreate(spec));
        trace == old(trace) + [Attempt(ServiceCreate(spec), failure)] &&
        events == old(events) + (if failure.None? then [Event(Action.Create, spec.name)] else []) &&
        r == (if failure.None? then Success else Failure(Upstream(failure.value)))
    {
      if bound.Err? {
        return Failure(BindFailed(bound.error));
      }
      var info := normalize(bound.value);
      var spec := CreateSpec(info, registries);
      if spec.Err? {
        return Failure(spec.error);
      }
      var failure := InvokeAudited(ServiceCreate(spec.value), docker);
      r := if failure.None? then Success else Failure(Upstream(failure.value));
    }

    /**
     * Update: after a successful bind, the spec is renamed after the path,
     * normalized and updated; on success it is recorded under its name.
     */
    method Update(path: string, bound: Result<ServiceInfo, string>, normalize: ServiceInfo -> ServiceInfo,
                  docker: Orchestrator) returns (r: Outcome)
      requires Valid()
      modifies this
      ensures Valid()
      ensures bound.Err? ==> r == Failure(BindFailed(bound.error)) && trace == old(trace) && events == old(events)
      ensures bound.Ok? ==>
        var spec := UpdateSpec(bound.value, path, normalize);
        var failure := docker(old(trace), ServiceUpdate(spec));
        trace == old(trace) + [Attempt(ServiceUpdate(spec), failure)] &&
        events == old(events) + (if failure.None? then [Event(Action.Update, spec.name)] else []) &&
        r == (if failure.None? then Success else Failure(Upstream(failure.value)))
    {
      if bound.Err? {
        return Failure(BindFailed(bound.error));
      }
      var info := bound.value.(name := path);
      info := normalize(info);
      var failure := InvokeAudited(ServiceUpdate(info), docker);
      r := if failure.None? then Success else Failure(Upstream(failure.value));
    }

    /**
     * Scale: the count is parsed before anything is called; a parsed count
     * is passed on as an unsigned 64-bit value, so a negative one wraps.
     */
    method Scale(name: string, count: string, docker: Orchestrator) returns (r: Outcome)
      requires Valid()
      modifies this
      ensures Valid()
      ensures Strconv.Atoi(count).Err? ==>
        r == Failure(InvalidCount(Strconv.Atoi(count).error)) && trace == old(trace) && events == old(events)
      ensures Strconv.Atoi(count).Ok? ==>
        var call := ServiceScale(name, Strconv.ToUint64(Strconv.Atoi(count).value));
        var failure := docker(old(trace), call);
        trace == old(trace) + [Attempt(call, failure)] &&
        events == old(events) + (if failure.None? then [Event(Action.Scale, name)] else []) &&
        r == (if failure.None? then Success else Failure(Upstream(failure.value)))
    {
      var parsed := Strconv.Atoi(count);
      if parsed.Err? {
        return Failure(InvalidCount(parsed.error));
      }
      var failure := InvokeAudited(ServiceScale(name, Strconv.ToUint64(parsed.value)), docker);
      r := if failure.None? then Success else Failure(Upstream(failure.value));
    }

    /** Rollback: one call, with no check of its own; recorded on success. */
    method Rollback(name: string, docker: Orchestrator) returns (r: Outcome)
      requires Valid()
      modifies this
      ensures Valid()
      ensures var failure := docker(old(trace), ServiceRollback(name));
        trace == old(trace) + [Attempt(ServiceRollback(name), failure)] &&
        events == old(events) + (if failure.None? then [Event(Action.Rollback, name)] else []) &&
        r == (if failure.None? then Success else Failure(Upstream(failure.value)))
    {
      var failure := InvokeAudited(ServiceRollback(name), docker);
      r := if failure.None? then Success else Failure(Upstream(failure.value));
    }
  }

  /** A registry named `r1` at `reg.example.com` turns image `nginx` into `reg.example.com/nginx`. */
  lemma CreateSpecExample(registries: RegistryStore)
    requires registries("r1") == Found(Registry("reg.example.com", "auth"))
    ensures CreateSpec(ServiceInfo("web", "nginx", "r1", ""), registries) ==
      Ok(ServiceInfo("web", "reg.example.com/nginx", "r1", "auth"))
  {
    assert "reg.example.com" + "/" + "nginx" == "reg.example.com/nginx";
  }

  /** Deleting `a,b,c` when removing `b` fails: `a` is recorded, `b` is reported, `c` is never tried. */
  method DeleteAbortExample()
  {
    var controller := new ServiceController();
    var docker: Orchestrator := (trace, call) => if call == ServiceRemove("b") then Some("no such service") else None;
    Strings.SplitExamples();
    var r := controller.Delete("a,b,c", docker);
    var names := Strings.Split("a,b,c", ',');
    assert names == ["a", "b", "c"];
    var t := controller.trace;
    assert 1 <= |t| <= 3 && RemovedInOrder([], t, names[..|t|], docker);
    assert names[..|t|][0] == "a";
    assert t[0] == Attempt(ServiceRemove("a"), docker(t[..0], ServiceRemove("a")));
    assert |t| != 1;
    assert names[..|t|][1] == "b";
    assert t[1] == Attempt(ServiceRemove("b"), docker(t[..1], ServiceRemove("b")));
    assert controller.trace[0] == Attempt(ServiceRemove("a"), None);
    assert controller.trace[1].call == ServiceRemove("b");
    assert |controller.trace| == 2;
    assert r == Failure(Upstream("no such service"));
    assert controller.events == [Event(Delete, "a")];
  }
}
