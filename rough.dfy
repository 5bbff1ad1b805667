/**
 The configuration manager of rough.py: a double-checked lazy singleton whose constructor
 refuses to run once the shared instance exists.

 As in the Singletons module, `ConfigurationManagerClass` holds the class-level state
 (`__instance`, `__lock`) and its methods are the constructor call and `getInstance`. A ghost
 set records every manager object that either path has handed out, so "only one instance
 exists" can be stated and checked.
 */
module Rough {
  import opened Outcome
  import Singletons

  /** A ConfigurationManager object. */
  class ConfigurationManager {
    constructor () {}
  }

  /** The class-level state of ConfigurationManager, as rough.py writes it. */
  class ConfigurationManagerClass {
    var instance: Option<ConfigurationManager>
    var locked: bool
    ghost var created: nat
    ghost var handedOut: set<ConfigurationManager>

    /**
     Between calls the lock is free, `getInstance` has allocated at most the one recorded object,
     and that object is among those handed out.
     */
    ghost predicate Valid()
      reads this
    {
      && !locked
      && created == (if instance.Some? then 1 else 0)
      && (instance.Some? ==> instance.value in handedOut)
    }

    constructor ()
      ensures Valid() && instance == None && handedOut == {}
    {
      instance := None;
      locked := false;
      created := 0;
      handedOut := {};
    }

    /**
     `ConfigurationManager()`: raises exactly when the instance is already set; a successful call
     returns a new object that is NOT recorded as the instance.
     */
    method Construct() returns (r: Result<ConfigurationManager>)
      requires Valid()
      modifies this
      ensures Valid()
      ensures r.Raised? <==> old(instance).Some?
      ensures r.Raised? ==> r.error == Exception("Already Configured") && handedOut == old(handedOut)
      ensures r.Ok? ==> fresh(r.value) && handedOut == old(handedOut) + {r.value}
      ensures instance == old(instance) && created == old(created)
    {
      if instance.Some? {
        r := Raised(Exception("Already Configured"));
      } else {
        var obj := new ConfigurationManager();
        handedOut := handedOut + {obj};
        r := Ok(obj);
      }
    }

    /** `getInstance()`: allocates and records on the first call only, under the lock. */
    method GetInstance() returns (r: ConfigurationManager)
      requires Valid()
      modifies this
      ensures Valid() && created <= 1
      ensures instance == Singletons.LazyNext(old(instance), r) && instance == Some(r)
      ensures old(instance).None? ==> fresh(r) && handedOut == old(handedOut) + {r}
      ensures old(instance).Some? ==> handedOut == old(handedOut)
    {
      if instance.None? {
        locked := true;
        if instance.None? {
          var obj := new ConfigurationManager();
          instance := Some(obj);
          created := created + 1;
          handedOut := handedOut + {obj};
        }
        locked := false;
      }
      r := instance.value;
    }
  }

  /**
   Once `getInstance` has run, the instance stays what it returned and a direct construction
   raises.
   */
  method ConstructAfterGetInstanceRaises(c: ConfigurationManagerClass)
    returns (shared: ConfigurationManager, direct: Result<ConfigurationManager>)
    requires c.Valid()
    modifies c
    ensures direct == Raised(Exception("Already Configured"))
    ensures c.instance == Some(shared)
  {
    shared := c.GetInstance();
    direct := c.Construct();
  }

  /**
   The constructor run before `getInstance` (as rough.py's own demo does) succeeds, and the
   later `getInstance` allocates a second, different manager.
   */
  method DirectThenLazyMakesTwo(c: ConfigurationManagerClass)
    returns (direct: ConfigurationManager, shared: ConfigurationManager)
    requires c.Valid() && c.instance == None && c.handedOut == {}
    modifies c
    ensures direct != shared && c.handedOut == {direct, shared}
  {
    var r := c.Construct();
    direct := r.value;
    shared := c.GetInstance();
  }

  /**
   The class-level state of ConfigurationManager with the constructor always refused, so that
   `getInstance` is the only way to obtain a manager.
   */
  class GuardedConfigurationManagerClass {
    var instance: Option<ConfigurationManager>
    var locked: bool
    ghost var handedOut: set<ConfigurationManager>

    /** Between calls the lock is free, and the recorded instance is the only manager handed out. */
    ghost predicate Valid()
      reads this
    {
      !locked && handedOut == (if instance.Some? then {instance.value} else {})
    }

    constructor ()
      ensures Valid() && instance == None
    {
      instance := None;
      locked := false;
      handedOut := {};
    }

    /** `ConfigurationManager()` with the guard dropped: always raises; nothing changes. */
    method Construct() returns (r: Result<ConfigurationManager>)
      ensures r == Raised(Exception("Already Configured"))
    {
      r := Raised(Exception("Already Configured"));
    }

    /** `getInstance()`: as before; at most one manager is ever handed out. */
    method GetInstance() returns (r: ConfigurationManager)
      requires Valid()
      modifies this
      ensures Valid() && handedOut == {r}
      ensures instance == Singletons.LazyNext(old(instance), r) && instance == Some(r)
      ensures old(instance).None? ==> fresh(r)
    {
      if instance.None? {
        locked := true;
        if instance.None? {
          var obj := new ConfigurationManager();
          instance := Some(obj);
          handedOut := {obj};
        }
        locked := false;
      }
      r := instance.value;
    }
  }
}
