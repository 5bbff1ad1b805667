/**
 The singleton variants of creationalDesignPatterns/sigleton.py, and the class that shows why
 they are wanted (JudgeAnalytics).

 Python keeps class-level state in the class object itself. Here every such class has a
 companion Dafny class named `...Class`: its one object stands for the Python class object and
 holds the class-level fields, and its methods are the static methods and the constructor call
 `X()`. The objects a singleton hands out are values of the plain Dafny class of the same name;
 "the identical object" is reference equality. Threads are not modelled: a `with lock:` block is
 one atomic step, and the lock is a boolean that every method leaves released.
 */
module Singletons {
  import opened Outcome

  // ------------------------------------------------------------------
  // JudgeAnalytics: a class-level counter beside a per-object counter
  // ------------------------------------------------------------------

  /** The class-level state of JudgeAnalytics: the shared `submitCount`. */
  class JudgeAnalyticsClass {
    var submitCount: int

    constructor ()
      ensures submitCount == 0
    {
      submitCount := 0;
    }
  }

  /** One JudgeAnalytics object: its own `runCount`, and the class whose `submitCount` it shares. */
  class JudgeAnalytics {
    const cls: JudgeAnalyticsClass
    var runCount: int

    constructor (cls: JudgeAnalyticsClass)
      ensures this.cls == cls && runCount == 0
    {
      this.cls := cls;
      runCount := 0;
    }

    /** Raises this object's run count; no other object is touched. */
    method IncrementRunCount()
      modifies this
      ensures runCount == old(runCount) + 1
    {
      runCount := runCount + 1;
    }

    /** Raises the count shared by every object of the class; no object's run count changes. */
    method IncrementSubmitCount()
      modifies cls
      ensures cls.submitCount == old(cls.submitCount) + 1
    {
      cls.submitCount := cls.submitCount + 1;
    }

    method GetRunCount() returns (r: int)
      ensures r == runCount
    {
      r := runCount;
    }

    method GetSubmitCount() returns (r: int)
      ensures r == cls.submitCount
    {
      r := cls.submitCount;
    }
  }

  /**
   Two objects of one class: a submission through `a` is seen through `b`, while run counts stay
   apart.
   */
  method SubmitCountIsShared(a: JudgeAnalytics, b: JudgeAnalytics) returns (seenByA: int, seenByB: int)
    requires a != b && a.cls == b.cls
    modifies a, a.cls
    ensures seenByA == seenByB == old(a.cls.submitCount) + 1
    ensures a.runCount == old(a.runCount) + 1 && b.runCount == old(b.runCount)
  {
    a.IncrementSubmitCount();
    a.IncrementRunCount();
    seenByA := a.GetSubmitCount();
    seenByB := b.GetSubmitCount();
  }

  // ------------------------------------------------------------------
  // EagerSingleton: the first construction records itself
  // ------------------------------------------------------------------

  /** An EagerSingleton object. */
  class EagerSingleton {
    constructor () {}
  }

  /** The class-level state of EagerSingleton: the recorded `__instance`, initially `None`. */
  class EagerSingletonClass {
    var instance: Option<EagerSingleton>

    constructor ()
      ensures instance == None
    {
      instance := None;
    }

    /**
     `EagerSingleton()`: the first call records and returns a new object; every later call raises
     and leaves the record alone.
     */
    method Construct() returns (r: Result<EagerSingleton>)
      modifies this
      ensures old(instance).Some? ==>
                r == Raised(Exception("This class is a singleton!")) && instance == old(instance)
      ensures old(instance).None? ==> r.Ok? && fresh(r.value) && instance == Some(r.value)
    {
      if instance.Some? {
        r := Raised(Exception("This class is a singleton!"));
      } else {
        var obj := new EagerSingleton();
        instance := Some(obj);
        r := Ok(obj);
      }
    }

    /** `getInstance()`: creates nothing; the recorded object, or `None` before any construction. */
    method GetInstance() returns (r: Option<EagerSingleton>)
      ensures r == instance
    {
      r := instance;
    }
  }

  // ------------------------------------------------------------------
  // The lazy family: one step, and what a sequence of steps does
  // ------------------------------------------------------------------

  /**
   The instance slot after one lazy `getInstance` call, where `made` is the object the call
   allocates if the slot is still empty.
   */
  function LazyNext<T>(slot: Option<T>, made: T): Option<T>
  {
    if slot.None? then Some(made) else slot
  }

  /**
   What a sequence of lazy `getInstance` calls returns, starting from `slot`; call number `k`
   would allocate `made[k]` if it found the slot empty.
   */
  function Results<T>(slot: Option<T>, made: seq<T>): seq<T>
    decreases |made|
  {
    if made == [] then []
    else
      var next := LazyNext(slot, made[0]);
      [next.value] + Results(next, made[1..])
  }

  /** The slot after that sequence of calls. */
  function Final<T>(slot: Option<T>, made: seq<T>): Option<T>
    decreases |made|
  {
    if made == [] then slot else Final(LazyNext(slot, made[0]), made[1..])
  }

  /** The number of objects that sequence of calls allocates. */
  function Creations<T>(slot: Option<T>, made: seq<T>): nat
    decreases |made|
  {
    if made == [] then 0
    else (if slot.None? then 1 else 0) + Creations(LazyNext(slot, made[0]), made[1..])
  }

  /** Once the slot holds `x`, every call returns `x`, the slot keeps `x`, and nothing is allocated. */
  lemma {:induction false} SetInstanceIsPermanent<T>(x: T, made: seq<T>)
    ensures |Results(Some(x), made)| == |made|
    ensures forall k :: 0 <= k < |made| ==> Results(Some(x), made)[k] == x
    ensures Final(Some(x), made) == Some(x)
    ensures Creations(Some(x), made) == 0
    decreases |made|
  {
    if made != [] {
      SetInstanceIsPermanent(x, made[1..]);
      assert Results(Some(x), made) == [x] + Results(Some(x), made[1..]);
    }
  }

  /**
   From an empty slot, a non-empty sequence of calls allocates exactly one object, the first
   call's, and every call returns it.
   */
  lemma {:induction false} FirstCallDecides<T>(made: seq<T>)
    requires made != []
    ensures |Results(None, made)| == |made|
    ensures forall k :: 0 <= k < |made| ==> Results(None, made)[k] == made[0]
    ensures Final(None, made) == Some(made[0])
    ensures Creations(None, made) == 1
  {
    SetInstanceIsPermanent(made[0], made[1..]);
    assert Results(None, made) == [made[0]] + Results(Some(made[0]), made[1..]);
  }

  // ------------------------------------------------------------------
  // LazySingleton
  // ------------------------------------------------------------------

  /** A LazySingleton object. */
  class LazySingleton {
    constructor () {}
  }

  /** The class-level state of LazySingleton: `_instance`, and a ghost count of allocations. */
  class LazySingletonClass {
    var instance: Option<LazySingleton>
    ghost var created: nat

    /** At most one object has been allocated, and it is the one recorded. */
    ghost predicate Valid()
      reads this
    {
      created == if instance.Some? then 1 else 0
    }

    constructor ()
      ensures Valid() && instance == None
    {
      instance := None;
      created := 0;
    }

    /** `LazySingleton()`: always raises; nothing changes. */
    method Construct() returns (r: Result<LazySingleton>)
      ensures r == Raised(Exception("Use getInstance() to access the singleton"))
    {
      r := Raised(Exception("Use getInstance() to access the singleton"));
    }

    /** `getInstance()`: allocates on the first call only, and returns the recorded object. */
    method GetInstance() returns (r: LazySingleton)
      requires Valid()
      modifies this
      ensures Valid() && created <= 1
      ensures instance == LazyNext(old(instance), r) && instance == Some(r)
      ensures old(instance).None? ==> fresh(r)
    {
      if instance.None? {
        var obj := new LazySingleton();
        instance := Some(obj);
        created := created + 1;
      }
      r := instance.value;
    }
  }

  // ------------------------------------------------------------------
  // SynchronizedSingleton: the whole check-and-set under the lock
  // ------------------------------------------------------------------

  /** A SynchronizedSingleton object. */
  class SynchronizedSingleton {
    constructor () {}
  }

  /** The class-level state of SynchronizedSingleton: `_instance` and `_lock`. */
  class SynchronizedSingletonClass {
    var instance: Option<SynchronizedSingleton>
    var locked: bool
    ghost var created: nat

    /** Between calls the lock is free; at most one object has been allocated, the recorded one. */
    ghost predicate Valid()
      reads this
    {
      !locked && created == if instance.Some? then 1 else 0
    }

    constructor ()
      ensures Valid() && instance == None
    {
      instance := None;
      locked := false;
      created := 0;
    }

    /** `SynchronizedSingleton()`: always raises; nothing changes. */
    method Construct() returns (r: Result<SynchronizedSingleton>)
      ensures r == Raised(Exception("Use getInstance()"))
    {
      r := Raised(Exception("Use getInstance()"));
    }

    /** `getInstance()`: the lazy step, taken with the lock held; the same state and result as LazySingleton's. */
    method GetInstance() returns (r: SynchronizedSingleton)
      requires Valid()
      modifies this
      ensures Valid() && created <= 1
      ensures instance == LazyNext(old(instance), r) && instance == Some(r)
      ensures old(instance).None? ==> fresh(r)
    {
      locked := true;
      if instance.None? {
        var obj := new SynchronizedSingleton();
        instance := Some(obj);
        created := created + 1;
      }
      locked := false;
      r := instance.value;
    }
  }

  // ------------------------------------------------------------------
  // DoubleCheckedSingleton: check, lock, check again
  // ------------------------------------------------------------------

  /** A DoubleCheckedSingleton object. */
  class DoubleCheckedSingleton {
    constructor () {}
  }

  /** The class-level state of DoubleCheckedSingleton: `_instance` and `_lock`. */
  class DoubleCheckedSingletonClass {
    var instance: Option<DoubleCheckedSingleton>
    var locked: bool
    ghost var created: nat

    /** Between calls the lock is free; at most one object has been allocated, the recorded one. */
    ghost predicate Valid()
      reads this
    {
      !locked && created == if instance.Some? then 1 else 0
    }

    constructor ()
      ensures Valid() && instance == None
    {
      instance := None;
      locked := false;
      created := 0;
    }

    /** `DoubleCheckedSingleton()`: always raises; nothing changes. */
    method Construct() returns (r: Result<DoubleCheckedSingleton>)
      ensures r == Raised(Exception("Use getInstance()"))
    {
      r := Raised(Exception("Use getInstance()"));
    }

    /** `getInstance()`: the lazy step with both checks; the same state and result as LazySingleton's. */
    method GetInstance() returns (r: DoubleCheckedSingleton)
      requires Valid()
      modifies this
      ensures Valid() && created <= 1
      ensures instance == LazyNext(old(instance), r) && instance == Some(r)
      ensures old(instance).None? ==> fresh(r)
    {
      if instance.None? {
        locked := true;
        // Run on its own, nothing can fill the slot between the two checks.
        assert instance.None?;
        if instance.None? {
          var obj := new DoubleCheckedSingleton();
          instance := Some(obj);
          created := created + 1;
        }
        locked := false;
      }
      r := instance.value;
    }
  }

  // ------------------------------------------------------------------
  // BillPughSingleton: the slot lives in a helper class
  // ------------------------------------------------------------------

  /** A BillPughSingleton object. */
  class BillPughSingleton {
    constructor () {}
  }

  /** The class-level state of the nested `_SingletonHelper`: its `INSTANCE`. */
  class SingletonHelper {
    var instance: Option<BillPughSingleton>
    ghost var created: nat

    constructor ()
      ensures instance == None && created == 0
    {
      instance := None;
      created := 0;
    }
  }

  /** The class-level state of BillPughSingleton: its nested helper class. */
  class BillPughSingletonClass {
    const helper: SingletonHelper

    /** At most one object has been allocated, and it is the one the helper records. */
    ghost predicate Valid()
      reads this, helper
    {
      helper.created == if helper.instance.Some? then 1 else 0
    }

    constructor ()
      ensures Valid() && helper.instance == None && fresh(helper)
    {
      helper := new SingletonHelper();
    }

    /** `BillPughSingleton()`: always raises; nothing changes. */
    method Construct() returns (r: Result<BillPughSingleton>)
      ensures r == Raised(Exception("Use getInstance()"))
    {
      r := Raised(Exception("Use getInstance()"));
    }

    /** `getInstance()`: the lazy step on the helper's slot; the same state and result as LazySingleton's. */
    method GetInstance() returns (r: BillPughSingleton)
      requires Valid()
      modifies helper
      ensures Valid() && helper.created <= 1
      ensures helper.instance == LazyNext(old(helper.instance), r) && helper.instance == Some(r)
      ensures old(helper.instance).None? ==> fresh(r)
    {
      if helper.instance.None? {
        var obj := new BillPughSingleton();
        helper.instance := Some(obj);
        helper.created := helper.created + 1;
      }
      r := helper.instance.value;
    }
  }
}
