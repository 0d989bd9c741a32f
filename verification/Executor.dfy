/** iExecutor: the runtime list of applications. */
module Executor {
  import opened Service
  import opened App

  /** ExecutorStatusTrait::Code. */
  datatype ExecCode =
    | EXEC_OK | EXEC_ID_TAKEN | EXEC_REGISTRY_FULL | SVC_ALREADY_STARTED | UNKNOWN_ID | INITIALIZATION_ERR | START_FAILURE

  /** What the init and start hooks of the application with this ID return when they run. */
  type Hooks = SvcId -> Code

  /** One application brought up on its own: initialised if it is not, then started if it is not; a failed
      initialisation ends the attempt. */
  function BroughtUp(f: Flags, initHook: Code, startHook: Code): Flags {
    var g := if f.isInit then f else After(f, Init, initHook);
    if !g.isInit then g else if g.isStarted then g else After(g, Start, startHook)
  }

  /** It runs afterwards exactly if it ran before or every hook that was still due succeeded. */
  lemma BroughtUpRuns(f: Flags, initHook: Code, startHook: Code)
    requires f.isStarted ==> f.isInit
    ensures BroughtUp(f, initHook, startHook).isStarted
            <==> f.isStarted || ((f.isInit || initHook == OK) && startHook == OK)
    ensures BroughtUp(f, initHook, startHook).isInit <==> f.isInit || initHook == OK
  {
  }

  class Executor {
    const capacity: nat
    var apps: seq<Svc>

    ghost predicate Valid()
      reads this, apps
    {
      |apps| <= capacity && DistinctIds(apps) && forall a :: a in apps ==> a.Valid()
    }

    constructor (capacity: nat)
      ensures Valid() && apps == [] && this.capacity == capacity
    {
      this.capacity := capacity;
      apps := [];
    }

    method Find(id: SvcId) returns (app: Svc?)
      requires Valid()
      ensures app == null <==> !Known(apps, id)
      ensures app != null ==> app in apps && app.id == id
    {
      app := null;
      for i := 0 to |apps|
        invariant app == null && forall k :: 0 <= k < i ==> apps[k].id != id
      {
        if apps[i].id == id {
          app := apps[i];
          break;
        }
      }
    }

    /** The capacity test comes before the duplicate test; a new application goes to the front. */
    method RegisterApp(app: Svc) returns (status: ExecCode)
      requires Valid() && app.Valid()
      modifies this
      ensures Valid()
      ensures status == if |old(apps)| >= capacity then EXEC_REGISTRY_FULL
                        else if Known(old(apps), app.id) then EXEC_ID_TAKEN else EXEC_OK
      ensures apps == (if status == EXEC_OK then [app] else []) + old(apps)
    {
      status := EXEC_OK;
      if |apps| < capacity {
        var found := Find(app.id);
        if found == null {
          apps := [app] + apps;
        } else {
          status := EXEC_ID_TAKEN;
        }
      } else {
        status := EXEC_REGISTRY_FULL;
      }
    }

    /** Every application ends up exactly as if it had been brought up alone: no failure reaches another. */
    method StartAll(initHook: Hooks, startHook: Hooks) returns (status: ExecCode)
      requires Valid()
      modifies apps
      ensures Valid() && status == EXEC_OK
      ensures forall a :: a in apps ==> a.View() == BroughtUp(old(a.View()), initHook(a.id), startHook(a.id))
    {
      status := EXEC_OK;
      for i := 0 to |apps|
        invariant forall k :: 0 <= k < |apps| ==> apps[k].Valid()
        invariant forall k :: 0 <= k < i ==>
                    apps[k].View() == BroughtUp(old(apps[k].View()), initHook(apps[k].id), startHook(apps[k].id))
        invariant forall k :: i <= k < |apps| ==> apps[k].View() == old(apps[k].View())
      {
        var app := apps[i];
        assert forall k :: 0 <= k < |apps| && k != i ==> apps[k] != app;
        if !app.isInit {
          var s := app.DoInit(initHook(app.id));
          if s != OK {
            continue;
          }
        }
        if !app.isStarted {
          var _ := app.DoStart(startHook(app.id));
        }
      }
    }

    /** Initialises and starts one registered application, unless it runs already. */
    method BringUp(app: Svc, initHook: Code, startHook: Code) returns (status: ExecCode)
      requires app.Valid()
      modifies app
      ensures app.Valid() && app.View() == BroughtUp(old(app.View()), initHook, startHook)
      ensures status == if old(app.isStarted) then SVC_ALREADY_STARTED
                        else if !app.isInit then INITIALIZATION_ERR
                        else if !app.isStarted then START_FAILURE else EXEC_OK
    {
      StartedImpliesInit(app.attempts);
      if app.isStarted {
        return SVC_ALREADY_STARTED;
      }
      if !app.isInit {
        var s := app.DoInit(initHook);
        if s != OK {
          return INITIALIZATION_ERR;
        }
      }
      var s := app.DoStart(startHook);
      status := if s == OK then EXEC_OK else START_FAILURE;
    }

    /** Only the application with this ID changes, and the answer tells how far it got. */
    method StartOne(id: SvcId, initHook: Code, startHook: Code) returns (status: ExecCode)
      requires Valid()
      modifies apps
      ensures Valid()
      ensures forall a :: a in apps && a.id != id ==> a.View() == old(a.View())
      ensures status == UNKNOWN_ID <==> !Known(apps, id)
      ensures forall a :: a in apps && a.id == id ==>
                && a.View() == BroughtUp(old(a.View()), initHook, startHook)
                && status == if old(a.isStarted) then SVC_ALREADY_STARTED
                             else if !a.isInit then INITIALIZATION_ERR
                             else if !a.isStarted then START_FAILURE else EXEC_OK
    {
      var app := Find(id);
      if app == null {
        return UNKNOWN_ID;
      }
      OnlyOne(app);
      status := BringUp(app, initHook, startHook);
    }

    method StopAll(stopHook: Hooks) returns (status: ExecCode)
      requires Valid()
      modifies apps
      ensures Valid() && status == EXEC_OK
      ensures forall a :: a in apps ==> a.View() == After(old(a.View()), Stop, stopHook(a.id))
    {
      status := EXEC_OK;
      for i := 0 to |apps|
        invariant forall k :: 0 <= k < |apps| ==> apps[k].Valid()
        invariant forall k :: 0 <= k < i ==> apps[k].View() == After(old(apps[k].View()), Stop, stopHook(apps[k].id))
        invariant forall k :: i <= k < |apps| ==> apps[k].View() == old(apps[k].View())
      {
        if apps[i].isStarted {
          var _ := apps[i].DoStop(stopHook(apps[i].id));
        }
      }
    }

    /** The status is OK even if the stop failed or nothing was running. */
    method StopOne(id: SvcId, stopHook: Code) returns (status: ExecCode)
      requires Valid() && Known(apps, id)
      modifies apps
      ensures Valid() && status == EXEC_OK
      ensures forall a :: a in apps && a.id != id ==> a.View() == old(a.View())
      ensures forall a :: a in apps && a.id == id ==> a.View() == After(old(a.View()), Stop, stopHook)
    {
      var app := Find(id);
      OnlyOne(app);
      if app.isStarted {
        var _ := app.DoStop(stopHook);
      }
      status := EXEC_OK;
    }

    lemma OnlyOne(app: Svc)
      requires Valid() && app in apps
      ensures forall a :: a in apps && a.id == app.id ==> a == app
    {
    }
  }
}
