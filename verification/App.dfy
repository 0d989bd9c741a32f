/** The child registry of iSvc.hpp and an application run by a PassiveRunner. */
module App {
  import opened Service

  predicate DistinctIds(svcs: seq<Svc>) {
    forall i, j :: 0 <= i < j < |svcs| ==> svcs[i].id != svcs[j].id
  }

  predicate Known(svcs: seq<Svc>, id: SvcId) {
    exists i :: 0 <= i < |svcs| && svcs[i].id == id
  }

  class Registry {
    const max: nat
    var svcs: seq<Svc>

    ghost predicate Valid()
      reads this
    {
      |svcs| <= max && DistinctIds(svcs)
    }

    constructor (max: nat)
      ensures Valid() && svcs == [] && this.max == max
    {
      this.max := max;
      svcs := [];
    }

    method FindSvc(id: SvcId) returns (svc: Svc?)
      requires Valid()
      ensures svc == null <==> !Known(svcs, id)
      ensures svc != null ==> svc in svcs && svc.id == id
    {
      svc := null;
      for i := 0 to |svcs|
        invariant svc == null && forall k :: 0 <= k < i ==> svcs[k].id != id
      {
        if svcs[i].id == id {
          svc := svcs[i];
          break;
        }
      }
    }

    /** The duplicate test comes before the capacity test. */
    method RegisterSvc(svc: Svc) returns (status: Code)
      requires Valid()
      modifies this
      ensures Valid()
      ensures status == if Known(old(svcs), svc.id) then ALREADY_REGISTERED
                        else if |old(svcs)| == max then REGISTRY_FULL else OK
      ensures svcs == old(svcs) + if status == OK then [svc] else []
    {
      var found := FindSvc(svc.id);
      if found != null {
        return ALREADY_REGISTERED;
      }
      if |svcs| == max {
        return REGISTRY_FULL;
      }
      svcs := svcs + [svc];
      return OK;
    }
  }

  /** A hook call of a passive application; a cleanup carries the children whose started flag is still set. */
  datatype AppEvent = PreRunInit | PostRunCleanup(childrenUp: set<SvcId>)

  ghost predicate Alternates(log: seq<AppEvent>) {
    forall k :: 0 <= k < |log| ==> (log[k].PreRunInit? <==> k % 2 == 0)
  }

  const MAX_NUM_CHILD_SVCS: nat := 16

  class PassiveApp {
    const self: Svc
    const children: Registry
    var log: seq<AppEvent>

    ghost predicate Valid()
      reads this, self, children, children.svcs
    {
      && self.Valid() && children.Valid() && self !in children.svcs
      && (forall c :: c in children.svcs ==> c.Valid())
      && Alternates(log)
      && (self.isStarted <==> |log| % 2 == 1)
    }

    constructor (id: SvcId)
      ensures Valid() && fresh(self) && fresh(children) && self.id == id && self.View() == Flags(false, false)
      ensures children.svcs == [] && children.max == 16 && log == []
    {
      self := new Svc(id);
      children := new Registry(MAX_NUM_CHILD_SVCS);
      log := [];
    }

    method RegisterChild(child: Svc) returns (status: Code)
      requires Valid() && child.Valid() && child != self
      modifies children
      ensures Valid()
      ensures status == if Known(old(children.svcs), child.id) then REREGISTRATION_ERR
                        else if |old(children.svcs)| == children.max then REGISTRY_FULL else OK
      ensures children.svcs == old(children.svcs) + if status == OK then [child] else []
    {
      var found := children.FindSvc(child.id);
      if found != null {
        status := REREGISTRATION_ERR;
      } else {
        var registered := children.RegisterSvc(child);
        status := if registered != OK then REGISTRY_FULL else OK;
      }
    }

    /** A child that was registered stays registered even if its start is refused or fails, so a second
        attempt is answered with REREGISTRATION_ERR and does not reach the child. */
    method StartChild(child: Svc, hook: Code) returns (status: Code)
      requires Valid() && child.Valid() && child != self
      modifies children, child
      ensures Valid()
      ensures Known(old(children.svcs), child.id) ==> status == REREGISTRATION_ERR
      ensures !Known(old(children.svcs), child.id) && |old(children.svcs)| == children.max ==> status == REGISTRY_FULL
      ensures if !Known(old(children.svcs), child.id) && |old(children.svcs)| < children.max then
                && children.svcs == old(children.svcs) + [child]
                && status == Answer(old(child.View()), Start, hook)
                && child.View() == After(old(child.View()), Start, hook)
              else
                children.svcs == old(children.svcs) && child.View() == old(child.View())
    {
      status := RegisterChild(child);
      if status == OK {
        status := child.DoStart(hook);
      }
    }

    /** `stop()` on every child, whose own stop hooks answer by `stopHook`. */
    method StopChildren(stopHook: SvcId -> Code)
      requires Valid()
      modifies children.svcs
      ensures Valid()
      ensures forall c :: c in children.svcs ==> c.View() == After(old(c.View()), Stop, stopHook(c.id))
    {
      var svcs := children.svcs;
      for i := 0 to |svcs|
        invariant forall k :: 0 <= k < |svcs| ==> svcs[k].Valid()
        invariant forall k :: 0 <= k < i ==> svcs[k].View() == After(old(svcs[k].View()), Stop, stopHook(svcs[k].id))
        invariant forall k :: i <= k < |svcs| ==> svcs[k].View() == old(svcs[k].View())
      {
        var _ := svcs[i].DoStop(stopHook(svcs[i].id));
      }
    }

    method DoInit(hook: Code) returns (status: Code)
      requires Valid()
      modifies self
      ensures Valid()
      ensures status == Answer(old(self.View()), Init, hook)
      ensures self.View() == After(old(self.View()), Init, hook)
    {
      status := self.DoInit(hook);
    }

    /** The start hook runs the passive runner, whose pre_run_init result is not looked at. */
    method DoStart() returns (status: Code)
      requires Valid()
      modifies this, self
      ensures Valid()
      ensures status == Gate(old(self.View()), Start)
      ensures self.View() == After(old(self.View()), Start, OK)
      ensures log == old(log) + if status == OK then [PreRunInit] else []
    {
      if self.isInit && !self.isStarted {
        log := log + [PreRunInit];
      }
      status := self.DoStart(OK);
    }

    /** Stops the children, then cleans up. A child's flag is still set at the cleanup only if it was
        started and its own stop hook failed. */
    method DoStop(stopHook: SvcId -> Code) returns (status: Code)
      requires Valid()
      modifies this, self, children.svcs
      ensures Valid()
      ensures status == Gate(old(self.View()), Stop)
      ensures self.View() == After(old(self.View()), Stop, OK)
      ensures status != OK ==> log == old(log) && forall c :: c in children.svcs ==> c.View() == old(c.View())
      ensures status == OK ==>
                && |log| == |old(log)| + 1 && log[..|old(log)|] == old(log) && log[|old(log)|].PostRunCleanup?
                && (forall x :: x in log[|old(log)|].childrenUp <==>
                      exists c :: c in children.svcs && c.id == x && old(c.isStarted) && stopHook(x) != OK)
                && (forall c :: c in children.svcs ==> c.View() == After(old(c.View()), Stop, stopHook(c.id)))
    {
      if self.isInit && self.isStarted {
        forall c | c in children.svcs ensures c.isStarted ==> c.isInit {
          StartedImpliesInit(c.attempts);
        }
        StopChildren(stopHook);
        var up := set c | c in children.svcs && c.isStarted :: c.id;
        log := log + [PostRunCleanup(up)];
      }
      status := self.DoStop(OK);
    }

    method DoCleanup(hook: Code) returns (status: Code)
      requires Valid()
      modifies self
      ensures Valid()
      ensures status == Answer(old(self.View()), Cleanup, hook)
      ensures self.View() == After(old(self.View()), Cleanup, hook)
    {
      status := self.DoCleanup(hook);
    }
  }
  /** A new application takes any 16 children with different IDs, in order, and refuses every further one. */
  method NewAppWithChildren(id: SvcId, kids: seq<Svc>) returns (app: PassiveApp, answers: seq<Code>)
    requires DistinctIds(kids) && forall c :: c in kids ==> c.Valid()
    ensures app.Valid() && |answers| == |kids|
    ensures forall i :: 0 <= i < |kids| ==> answers[i] == if i < 16 then OK else REGISTRY_FULL
    ensures app.children.svcs == if |kids| <= 16 then kids else kids[..16]
  {
    app := new PassiveApp(id);
    answers := [];
    for i := 0 to |kids|
      invariant fresh(app.children) && app.Valid() && app.self !in kids && forall c :: c in kids ==> c.Valid()
      invariant |answers| == i && app.children.max == 16
      invariant forall k :: 0 <= k < i ==> answers[k] == if k < 16 then OK else REGISTRY_FULL
      invariant app.children.svcs == if i <= 16 then kids[..i] else kids[..16]
    {
      assert !Known(app.children.svcs, kids[i].id);
      var answer := app.RegisterChild(kids[i]);
      answers := answers + [answer];
    }
  }
}
