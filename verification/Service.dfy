/** iSvc: the lifecycle gates of src/svcs/iSvc.cpp. */
module Service {

  type SvcId = nat

  /** SvcStatusTrait::Code. */
  datatype Code =
    | OK | ID_TAKEN | UNREGISTERED_ERR | REGISTRY_FULL | UNINIT_ERR | ALREADY_INIT | ALREADY_STARTED | STOPPED | OS_ERR
    | REREGISTRATION_ERR | NO_MEM | UNKNOWN_ERR | INVALID_STATE | ALREADY_REGISTERED | UNKNOWN_REGISTRATION_ERR

  datatype Call = Init | Start | Stop | Cleanup

  datatype Flags = Flags(isInit: bool, isStarted: bool)

  /** What a call answers without running its hook, or OK if the hook runs. */
  function Gate(f: Flags, call: Call): Code {
    match call
    case Init => if f.isInit then ALREADY_INIT else OK
    case Start => if !f.isInit then UNINIT_ERR else if f.isStarted then ALREADY_STARTED else OK
    case Stop => if !f.isInit then UNINIT_ERR else if !f.isStarted then STOPPED else OK
    case Cleanup => if !f.isInit then UNINIT_ERR else if f.isStarted then ALREADY_STARTED else OK
  }

  function Moved(f: Flags, call: Call): Flags {
    match call
    case Init => f.(isInit := true)
    case Start => f.(isStarted := true)
    case Stop => f.(isStarted := false)
    case Cleanup => f.(isInit := false)
  }

  /** The status of a call whose hook would return `hook`. */
  function Answer(f: Flags, call: Call, hook: Code): Code {
    if Gate(f, call) == OK then hook else Gate(f, call)
  }

  function After(f: Flags, call: Call, hook: Code): Flags {
    if Answer(f, call, hook) == OK then Moved(f, call) else f
  }

  // ---- the lifecycle language ----------------------------------------------------------------------

  /** An API call and what its hook returns if it runs. */
  type Attempt = (Call, Code)

  function Replay(attempts: seq<Attempt>): Flags {
    if attempts == [] then Flags(false, false)
    else
      var last := attempts[|attempts| - 1];
      After(Replay(attempts[..|attempts| - 1]), last.0, last.1)
  }

  /** The hook calls that succeeded, in order. */
  function Successes(attempts: seq<Attempt>): seq<Call> {
    if attempts == [] then []
    else
      var before, last := attempts[..|attempts| - 1], attempts[|attempts| - 1];
      Successes(before) + if Answer(Replay(before), last.0, last.1) == OK then [last.0] else []
  }

  function StartStop(n: nat): seq<Call> {
    if n == 0 then [] else StartStop(n - 1) + [Start, Stop]
  }

  /** init (start stop)^n cleanup, for each n in turn. */
  function Lifetimes(ns: seq<nat>): seq<Call> {
    if ns == [] then [] else Lifetimes(ns[..|ns| - 1]) + [Init] + StartStop(ns[|ns| - 1]) + [Cleanup]
  }

  datatype Phase = Down | Ready(rounds: nat) | Running(rounds: nat)

  /** The lifetime that has begun but not ended. */
  function Begun(p: Phase): seq<Call> {
    match p
    case Down => []
    case Ready(n) => [Init] + StartStop(n)
    case Running(n) => [Init] + StartStop(n) + [Start]
  }

  function FlagsOf(p: Phase): Flags {
    Flags(!p.Down?, p.Running?)
  }

  lemma EndLifetime(ns: seq<nat>, n: nat)
    ensures Lifetimes(ns) + Begun(Ready(n)) + [Cleanup] == Lifetimes(ns + [n])
  {
    assert (ns + [n])[..|ns|] == ns;
  }

  lemma Grow(ns: seq<nat>, p: Phase, call: Call) returns (ns': seq<nat>, p': Phase)
    requires Gate(FlagsOf(p), call) == OK
    ensures Lifetimes(ns) + Begun(p) + [call] == Lifetimes(ns') + Begun(p')
    ensures FlagsOf(p') == Moved(FlagsOf(p), call)
  {
    ns' := ns;
    match call {
      case Init => p' := Ready(0);
      case Start => p' := Running(p.rounds);
      case Stop =>
        p' := Ready(p.rounds + 1);
        assert StartStop(p.rounds + 1) == StartStop(p.rounds) + [Start, Stop];
      case Cleanup =>
        EndLifetime(ns, p.rounds);
        ns', p' := ns + [p.rounds], Down;
    }
  }

  /** For every sequence of API calls with arbitrary hook results, the successful hook calls are a prefix of
      (init (start stop)* cleanup)*, and the flags tell exactly how far the current lifetime has come. */
  lemma {:induction false} LifecycleLanguage(attempts: seq<Attempt>) returns (ns: seq<nat>, p: Phase)
    ensures Successes(attempts) == Lifetimes(ns) + Begun(p)
    ensures Replay(attempts) == FlagsOf(p)
  {
    if attempts == [] {
      return [], Down;
    }
    var before, last := attempts[..|attempts| - 1], attempts[|attempts| - 1];
    ns, p := LifecycleLanguage(before);
    if Answer(Replay(before), last.0, last.1) == OK {
      ns, p := Grow(ns, p, last.0);
    }
  }

  /** What every call answers, wherever the lifetime has come to: with no lifetime begun all but init answer
      UNINIT_ERR; begun and not running, init answers ALREADY_INIT and stop STOPPED; while running, init answers
      ALREADY_INIT, start and cleanup ALREADY_STARTED. In all other cases the hook runs and the answer is its
      own, and the phase moves exactly if that is OK. */
  lemma AnswersByPhase(attempts: seq<Attempt>, call: Call, hook: Code) returns (ns: seq<nat>, p: Phase)
    ensures Successes(attempts) == Lifetimes(ns) + Begun(p) && Replay(attempts) == Flags(p != Down, p.Running?)
    ensures Answer(Replay(attempts), call, hook)
         == match (p, call)
            case (Down, Init) => hook
            case (Down, _) => UNINIT_ERR
            case (_, Init) => ALREADY_INIT
            case (Ready(_), Stop) => STOPPED
            case (Ready(_), _) => hook
            case (Running(_), Stop) => hook
            case (Running(_), _) => ALREADY_STARTED
    ensures Successes(attempts + [(call, hook)])
         == Successes(attempts) + if Answer(Replay(attempts), call, hook) == OK then [call] else []
  {
    ns, p := LifecycleLanguage(attempts);
    assert (attempts + [(call, hook)])[..|attempts|] == attempts;
  }

  lemma StartedImpliesInit(attempts: seq<Attempt>)
    ensures Replay(attempts).isStarted ==> Replay(attempts).isInit
  {
    var ns, p := LifecycleLanguage(attempts);
  }

  // ---- the object ----------------------------------------------------------------------------------

  /** The virtual hooks are chosen by the derived class; a call is given what its hook returns. */
  class Svc {
    const id: SvcId
    var isInit: bool
    var isStarted: bool
    ghost var attempts: seq<Attempt>

    ghost function View(): Flags
      reads this
    {
      Flags(isInit, isStarted)
    }

    ghost predicate Valid()
      reads this
    {
      View() == Replay(attempts)
    }

    constructor (id: SvcId)
      ensures this.id == id && Valid() && attempts == []
    {
      this.id := id;
      isInit, isStarted := false, false;
      attempts := [];
    }

    ghost method Note(call: Call, hook: Code)
      modifies this`attempts
      ensures attempts == old(attempts) + [(call, hook)]
      ensures Replay(attempts) == After(Replay(old(attempts)), call, hook)
    {
      ghost var before := attempts;
      attempts := attempts + [(call, hook)];
      assert attempts[..|attempts| - 1] == before;
    }

    method DoInit(hook: Code) returns (status: Code)
      requires Valid()
      modifies this
      ensures Valid() && attempts == old(attempts) + [(Init, hook)]
      ensures status == Answer(old(View()), Init, hook) && View() == After(old(View()), Init, hook)
    {
      status := ALREADY_INIT;
      if !isInit {
        status := hook;
        if status == OK {
          isInit := true;
        }
      }
      Note(Init, hook);
    }

    method DoStart(hook: Code) returns (status: Code)
      requires Valid()
      modifies this
      ensures Valid() && attempts == old(attempts) + [(Start, hook)]
      ensures status == Answer(old(View()), Start, hook) && View() == After(old(View()), Start, hook)
    {
      if !isInit {
        status := UNINIT_ERR;
      } else if isStarted {
        status := ALREADY_STARTED;
      } else {
        status := hook;
        if status == OK {
          isStarted := true;
        }
      }
      Note(Start, hook);
    }

    method DoStop(hook: Code) returns (status: Code)
      requires Valid()
      modifies this
      ensures Valid() && attempts == old(attempts) + [(Stop, hook)]
      ensures status == Answer(old(View()), Stop, hook) && View() == After(old(View()), Stop, hook)
    {
      if !isInit {
        status := UNINIT_ERR;
      } else if !isStarted {
        status := STOPPED;
      } else {
        status := hook;
        if status == OK {
          isStarted := false;
        }
      }
      Note(Stop, hook);
    }

    method DoCleanup(hook: Code) returns (status: Code)
      requires Valid()
      modifies this
      ensures Valid() && attempts == old(attempts) + [(Cleanup, hook)]
      ensures status == Answer(old(View()), Cleanup, hook) && View() == After(old(View()), Cleanup, hook)
    {
      if !isInit {
        status := UNINIT_ERR;
      } else if isStarted {
        status := ALREADY_STARTED;
      } else {
        status := hook;
        if status == OK {
          isInit := false;
        }
      }
      Note(Cleanup, hook);
    }
  }
}
