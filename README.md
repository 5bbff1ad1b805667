# Creational design patterns, modelled in Dafny

A model of the teaching examples in the `lld-design-patterns` repository: the singleton variants
(eager, lazy, synchronized, double-checked, Bill Pugh, and the configuration manager), the
burger and order builders, the notification and payment factories, and the vehicle and document
factory methods. The proofs cover how each behaves and what it promises.

- `outcome.dfy` (module `Outcome`): `Option`, the exceptions raised (`Exception`, `ValueError`,
  each with its message) and `Result` (a returned value or a raised exception).
- `text.dfy` (module `Text`): Python's `", ".join(...)` and `str(n)` for integers. Each comes with
  an inverse (`SplitJoined`, `ParseInt`) and a round-trip proof.
- `singletons.dfy` (module `Singletons`): `sigleton.py`. A Python class's class-level fields live
  in a companion Dafny class `XClass`. Its single object stands for the Python class object, and
  its methods are the constructor call `X()` (`Construct`) and the static `getInstance`. "The same
  object" means reference equality. A ghost counter `created` counts the objects `getInstance`
  allocates. Every lazy `getInstance` is proved against one pure step, `LazyNext`. The lemmas
  `SetInstanceIsPermanent` and `FirstCallDecides` cover any sequence of such steps.
- `rough.dfy` (module `Rough`): `rough.py`'s `ConfigurationManager`, plus a corrected variant (see
  Findings).
- `builders.dfy` (module `Builders`): `builder.py`. Python lists are `StrList` heap objects.
  `Burger` gets a fresh copy of its builder's list. `Order` shares its builder's list.
- `abstract_factory.dfy` (module `AbstractFactory`), `factory_method.dfy` (module `FactoryMethod`):
  `abstract_factory.py` and `factory.py`. Stateless products and factories are datatypes. Their
  methods are functions, and an operation that prints returns the printed line instead.

Threads are not modelled. A `with lock:` block is one atomic step, and the lock is a `locked`
field that every method's `Valid()` requires to be released between calls. So the synchronized,
double-checked and Bill Pugh `getInstance` are each proved to reach the same state and result as
the plain lazy one, `LazyNext`. In the double-checked variant the inner check always succeeds
(the assert before it).

## Model

| member | source | states |
|---|---|---|
| `Singletons.JudgeAnalyticsClass.constructor` | creationalDesignPatterns/sigleton.py:7 | the shared `submitCount` starts at 0 |
| `Singletons.JudgeAnalytics.constructor` | creationalDesignPatterns/sigleton.py:9-11 | a new object has `runCount` 0 and shares its class's counter |
| `Singletons.JudgeAnalytics.IncrementRunCount` | creationalDesignPatterns/sigleton.py:13-14 | raises this object's `runCount` by 1; only this object may change |
| `Singletons.JudgeAnalytics.IncrementSubmitCount` | creationalDesignPatterns/sigleton.py:16-17 | raises the class-wide `submitCount` by 1; no object's `runCount` may change |
| `Singletons.JudgeAnalytics.GetRunCount` | creationalDesignPatterns/sigleton.py:19-20 | returns this object's own run count and changes nothing |
| `Singletons.JudgeAnalytics.GetSubmitCount` | creationalDesignPatterns/sigleton.py:22-23 | returns the class-wide count, the same through every object of the class |
| `Singletons.SubmitCountIsShared` | creationalDesignPatterns/sigleton.py:13-30 | after a submission through one object, both objects report the new shared count, and only the first object's run count moved |
| `Singletons.EagerSingletonClass.constructor` | creationalDesignPatterns/sigleton.py:57 | no instance is recorded at first |
| `Singletons.EagerSingletonClass.Construct` | creationalDesignPatterns/sigleton.py:59-64 | the first construction records and returns a new object; any later one raises "This class is a singleton!" and leaves the record unchanged |
| `Singletons.EagerSingletonClass.GetInstance` | creationalDesignPatterns/sigleton.py:66-69 | creates and changes nothing; returns the recorded object, or None if none was constructed |
| `Singletons.SetInstanceIsPermanent` | creationalDesignPatterns/sigleton.py:96-101 | once the slot holds x, every later lazy call returns x, the slot keeps x and nothing more is allocated |
| `Singletons.FirstCallDecides` | creationalDesignPatterns/sigleton.py:96-101 | from an empty slot, any non-empty sequence of lazy calls allocates exactly one object, the first call's, and every call returns it |
| `Singletons.LazySingletonClass.constructor` | creationalDesignPatterns/sigleton.py:87 | `_instance` starts as None, with no object allocated |
| `Singletons.LazySingletonClass.Construct` | creationalDesignPatterns/sigleton.py:89-91 | always raises "Use getInstance() to access the singleton" and changes nothing |
| `Singletons.LazySingletonClass.GetInstance` | creationalDesignPatterns/sigleton.py:93-101 | the slot becomes `LazyNext` of the old slot and holds the returned object; a new object only when the slot was empty; never more than one allocated |
| `Singletons.SynchronizedSingletonClass.constructor` | creationalDesignPatterns/sigleton.py:148-149 | no instance, lock free |
| `Singletons.SynchronizedSingletonClass.Construct` | creationalDesignPatterns/sigleton.py:151-152 | always raises "Use getInstance()" and changes nothing |
| `Singletons.SynchronizedSingletonClass.GetInstance` | creationalDesignPatterns/sigleton.py:154-160 | the lock is released afterwards; same state and result as the lazy step |
| `Singletons.DoubleCheckedSingletonClass.constructor` | creationalDesignPatterns/sigleton.py:178-179 | no instance, lock free |
| `Singletons.DoubleCheckedSingletonClass.Construct` | creationalDesignPatterns/sigleton.py:181-182 | always raises "Use getInstance()" and changes nothing |
| `Singletons.DoubleCheckedSingletonClass.GetInstance` | creationalDesignPatterns/sigleton.py:184-192 | check, lock, check again and set; same state and result as the lazy step; the lock is released; at most one object allocated |
| `Singletons.SingletonHelper.constructor` | creationalDesignPatterns/sigleton.py:216-218 | the helper's `INSTANCE` starts as None |
| `Singletons.BillPughSingletonClass.constructor` | creationalDesignPatterns/sigleton.py:211-218 | the class owns a fresh helper holding no instance |
| `Singletons.BillPughSingletonClass.Construct` | creationalDesignPatterns/sigleton.py:213-214 | always raises "Use getInstance()" and changes nothing |
| `Singletons.BillPughSingletonClass.GetInstance` | creationalDesignPatterns/sigleton.py:220-224 | the lazy step on the helper's slot: same state and result as the lazy one, at most one object allocated |
| `Rough.ConfigurationManagerClass.constructor` | rough.py:21-23 | no instance, lock free, nothing handed out |
| `Rough.ConfigurationManagerClass.Construct` | rough.py:25-27 | raises "Already Configured" exactly when the instance is set; a success returns a new object that is not recorded as the instance |
| `Rough.ConfigurationManagerClass.GetInstance` | rough.py:30-35 | double-checked lazy step: allocates and records only when empty, afterwards returns the recorded object, releases the lock |
| `Rough.ConstructAfterGetInstanceRaises` | rough.py:25-35 | after `getInstance`, the instance stays the returned object and a direct construction raises "Already Configured" |
| `Rough.DirectThenLazyMakesTwo` | rough.py:25-35 | on a fresh class, construction followed by `getInstance` hands out two distinct managers |
| `Rough.GuardedConfigurationManagerClass.Construct` | rough.py:25-27 | corrected constructor: always raises and changes nothing |
| `Rough.GuardedConfigurationManagerClass.GetInstance` | rough.py:30-35 | corrected class: the recorded instance is the only manager ever handed out |
| `Builders.StrList.Append` | creationalDesignPatterns/builder.py:50 | appends one item at the end and keeps the rest |
| `Builders.Topping.Name` | creationalDesignPatterns/builder.py:49-67 | the name each `add_*` appends is non-empty and holds no comma, which is why every built list reads back |
| `Builders.Names` | creationalDesignPatterns/builder.py:49-67 | the ingredient list of a call sequence has one name per call, in call order |
| `Builders.NamesAppend` | creationalDesignPatterns/builder.py:49-67 | one more call appends exactly that topping's name |
| `Builders.NewBurgerBuilder` | creationalDesignPatterns/builder.py:42-47 | raises ValueError "Burger size must be provided" exactly for an empty size; otherwise a new builder with that size and no ingredients |
| `Builders.BurgerBuilder.constructor` | creationalDesignPatterns/builder.py:46-47 | the success path: stores the size, and the new list is empty |
| `Builders.BurgerBuilder.Add` | creationalDesignPatterns/builder.py:49-67 | appends one topping's name at the end; the size is unchanged; returns the same builder |
| `Builders.BurgerBuilder.AddCheese` | creationalDesignPatterns/builder.py:49-51 | appends "Cheese" at the end; the size is unchanged; returns the same builder |
| `Builders.BurgerBuilder.AddLettuce` | creationalDesignPatterns/builder.py:53-55 | appends "Lettuce" at the end; the size is unchanged; returns the same builder |
| `Builders.BurgerBuilder.AddTomato` | creationalDesignPatterns/builder.py:57-59 | appends "Tomato" at the end; the size is unchanged; returns the same builder |
| `Builders.BurgerBuilder.AddPepperoni` | creationalDesignPatterns/builder.py:61-63 | appends "Pepperoni" at the end; the size is unchanged; returns the same builder |
| `Builders.BurgerBuilder.AddExtraPatty` | creationalDesignPatterns/builder.py:65-67 | appends "Extra Patty" at the end; the size is unchanged; returns the same builder |
| `Builders.BurgerBuilder.Build` | creationalDesignPatterns/builder.py:69-75 | a new burger with the builder's size and a new list equal to the names of the calls made |
| `Builders.Burger.constructor` | creationalDesignPatterns/builder.py:27-29 | copies the size, and puts the ingredients into a fresh list |
| `Builders.BuiltBurgerIsSnapshot` | creationalDesignPatterns/builder.py:27-29 | an `add_*` after `build()` extends the builder's list and leaves the burger's list as it was |
| `Builders.BurgerText` | creationalDesignPatterns/builder.py:31-33 | "Burger(Size=<size>, Ingredients=[<names joined by \", \">])", with "Plain" for no ingredients; a rendering without a contract of its own, inverted by `BurgerTextRoundTrip` |
| `Builders.Burger.ToString` | creationalDesignPatterns/builder.py:31-33 | for a size and ingredients without commas, and a list other than ["Plain"], the text reads back as this burger's size and list |
| `Builders.ReadIngredientsRoundTrip` | creationalDesignPatterns/builder.py:32 | the ingredient text ("Plain" or the comma-joined names) reads back as the list |
| `Builders.BurgerTextRoundTrip` | creationalDesignPatterns/builder.py:31-33 | `Burger.__str__` text reads back as its size and ingredient list, for comma-free values |
| `Builders.PlainIsAmbiguous` | creationalDesignPatterns/builder.py:32 | the list ["Plain"] renders like the empty list |
| `Builders.BuiltBurgerTextRoundTrip` | creationalDesignPatterns/builder.py:31-67 | for every burger the builder can make, with a comma-free size, the text determines size and ingredients |
| `Builders.Order.constructor` | creationalDesignPatterns/builder.py:140-150 | copies order id and restaurant name; `addon` is the builder's own list, not a copy |
| `Builders.OrderBuilder.constructor` | creationalDesignPatterns/builder.py:157-160 | stores both mandatory fields; the extras list is new and empty |
| `Builders.OrderBuilder.IsDeliveryAddress` | creationalDesignPatterns/builder.py:163-165 | appends the address at the end; returns the same builder |
| `Builders.OrderBuilder.IsCoupon` | creationalDesignPatterns/builder.py:167-169 | appends the coupon at the end; returns the same builder |
| `Builders.OrderBuilder.IsInstructions` | creationalDesignPatterns/builder.py:171-173 | appends the instructions at the end; returns the same builder |
| `Builders.OrderBuilder.BuildOrder` | creationalDesignPatterns/builder.py:175-176 | a new order with the builder's id and restaurant, sharing the builder's list |
| `Builders.BuiltOrderSharesExtras` | creationalDesignPatterns/builder.py:150 | an append on the builder after `build_order()` is visible through the order |
| `AbstractFactory.MessageSender.SendMessage` | creationalDesignPatterns/abstract_factory.py:42-58 | the printed line ends with the message it was given, unchanged |
| `AbstractFactory.MessageFormatter.FormatMessage` | creationalDesignPatterns/abstract_factory.py:47-63 | the result is the family's tag ("[EMAIL FORMAT] " or "[SMS FORMAT] ") followed by the message unchanged |
| `AbstractFactory.FormatMessageInjective` | creationalDesignPatterns/abstract_factory.py:47-63 | a formatted message determines the formatter's family and the message |
| `AbstractFactory.NotificationFactory.CreateSender` | creationalDesignPatterns/abstract_factory.py:85-97 | the sender is of the factory's own family |
| `AbstractFactory.NotificationFactory.CreateFormatter` | creationalDesignPatterns/abstract_factory.py:85-100 | the formatter is of the factory's own family |
| `AbstractFactory.NewNotificationApp` | creationalDesignPatterns/abstract_factory.py:107-110 | the app's sender and formatter come from the same family as its factory |
| `AbstractFactory.NotificationApp.Notify` | creationalDesignPatterns/abstract_factory.py:112-115 | the printed line ends with the formatter's tag followed by the message |
| `AbstractFactory.NotifyEmits` | creationalDesignPatterns/abstract_factory.py:112-115 | notify emits "EMAIL SENT: [EMAIL FORMAT] m" for email and "SMS SENT: [SMS FORMAT] m" for SMS |
| `AbstractFactory.NotifyInjective` | creationalDesignPatterns/abstract_factory.py:112-115 | the emitted line determines the factory and the message |
| `AbstractFactory.GetNotificationFactory` | creationalDesignPatterns/abstract_factory.py:122-128 | succeeds exactly for "email" and "sms", giving the factory of that key; every other string raises ValueError "Unsupported notification type" |
| `AbstractFactory.GetNotificationFactoryOfKey` | creationalDesignPatterns/abstract_factory.py:122-128 | each notification factory is selected by its key |
| `AbstractFactory.Payment.ProcessPayment` | creationalDesignPatterns/abstract_factory.py:199-209 | the result is the method's fixed prefix followed directly by text in `str`'s integer form (`Text.IntText`: optional minus, digits, no leading zero) that reads as the amount; with `Text.IntTextRoundTrip` this makes the rest exactly `str(amount)` |
| `AbstractFactory.PrefixesExclusive` | creationalDesignPatterns/abstract_factory.py:199-209 | no payment method's prefix starts another method's confirmation |
| `AbstractFactory.ReceiptRoundTrip` | creationalDesignPatterns/abstract_factory.py:199-209 | a confirmation reads back as its payment method and amount |
| `AbstractFactory.ReadReceiptInverse` | creationalDesignPatterns/abstract_factory.py:199-209 | every string the reader accepts is the confirmation of the method and amount it names, so reading is exact in both directions |
| `AbstractFactory.PaymentFactory.CreatePayment` | creationalDesignPatterns/abstract_factory.py:218-228 | each payment factory makes its own payment method and no other |
| `AbstractFactory.GetPaymentFactory` | creationalDesignPatterns/abstract_factory.py:231-237 | gives a factory exactly for "Card", "UPI" and "Net", the one of that key; None, not an exception, for every other string |
| `AbstractFactory.GetPaymentFactoryOfKey` | creationalDesignPatterns/abstract_factory.py:231-237 | each payment factory is selected by its key |
| `Text.Join` | creationalDesignPatterns/builder.py:32 | `", ".join`: every character of the result comes from an item or from the separator; `SplitJoinRoundTrip` inverts it |
| `Text.SplitJoinRoundTrip` | creationalDesignPatterns/builder.py:32 | joining comma-free items with ", " can be undone |
| `Text.NatToString` | creationalDesignPatterns/abstract_factory.py:201 | `str` of a natural number is a non-empty digit string whose first digit is not 0 unless it is the only one |
| `Text.IntToString` | creationalDesignPatterns/abstract_factory.py:201 | `str` of an integer has the form `IntText`, with a minus sign exactly when the integer is negative |
| `Text.IntToStringRoundTrip` | creationalDesignPatterns/abstract_factory.py:201-209 | `str` of an integer reads back as that integer |
| `Text.IntTextRoundTrip` | creationalDesignPatterns/abstract_factory.py:201-209 | the converse: every text of the form `IntText` is `str` of the integer it reads as |
| `FactoryMethod.Vehicle.Drive` | creationalDesignPatterns/factory.py:50-65 | "Driving a car" for a car, "Riding a bike" for a bike; a constant per vehicle, told apart by `DriveInjective` |
| `FactoryMethod.DriveInjective` | creationalDesignPatterns/factory.py:50-65 | a car's `drive()` text differs from a bike's |
| `FactoryMethod.VehicleFactory.CreateVehicle` | creationalDesignPatterns/factory.py:91-106 | the car factory always makes a car and the bike factory always a bike |
| `FactoryMethod.VehicleClientCode` | creationalDesignPatterns/factory.py:112-118 | the line printed is the `drive()` text of the vehicle the factory creates; `VehicleClientCodeEmits` gives it per factory |
| `FactoryMethod.VehicleClientCodeEmits` | creationalDesignPatterns/factory.py:112-118 | the client prints "Driving a car" for the car factory and "Riding a bike" for the bike factory, so the two outputs differ |
| `FactoryMethod.Document.Export` | creationalDesignPatterns/factory.py:202-214 | "Exporting PDF document", "Exporting Word document" or "Exporting Excel document"; a constant per kind, told apart by `ExportInjective` |
| `FactoryMethod.ExportInjective` | creationalDesignPatterns/factory.py:202-214 | the three `export()` texts are pairwise different |
| `FactoryMethod.DocumentFactory.CreateDocument` | creationalDesignPatterns/factory.py:233-245 | each document factory always makes its own document kind and no other |
| `FactoryMethod.DocumentClientCode` | creationalDesignPatterns/factory.py:251-253 | the line printed is the `export()` text of the document the factory creates; `DocumentClientCodeEmits` gives it per factory |
| `FactoryMethod.DocumentClientCodeInjective` | creationalDesignPatterns/factory.py:251-253 | the client's output determines the factory |
| `FactoryMethod.DocumentClientCodeEmits` | creationalDesignPatterns/factory.py:251-253 | the client prints "Exporting PDF document", "Exporting Word document" or "Exporting Excel document" |

## Left out

- Threads: locks are a boolean held for one atomic step. Interleavings, the thread-safety claims
  of the synchronized, double-checked and Bill Pugh variants (Python's class loading included)
  and the memory-visibility concerns are not modelled.
- `__new__`, name mangling of `__instance` and the abstract base classes have no Dafny
  counterpart. A fresh Dafny object stands for `__new__`, and each abstract class is the
  datatype of its concrete products.
- Python allocates an object before an `__init__` that raises. That discarded object is not
  modelled, so a `Construct` that raises allocates nothing.
- Console output: every `print`, the module-level demo code, the `print` in `Order.__init__`, and
  the object representation printed by `NotificationApp.notify`. Where a property needs the
  printed text, the function returns the line instead.
- `process_payment` takes a float in the source. The model takes an integer, since Python's float
  rendering is not modelled.
- `Order.delivery_address`, `coupon_code` and `instructions` hold bound methods, not values, so
  they are not modelled. `OrderBuilder`'s arguments are any Python values in the source and
  strings here. The source's misspelt list attribute `additioal` is the field `additional`.
- `BurgerBuilder(size)` treats any falsy size as missing. With sizes as strings, that is the empty
  string.
- `rough.py:38` calls `obj1.getInstance()` on an instance, which fails because `getInstance` takes
  no `self`. The model calls it on the class.
- `client_code` and `get_factory` are each redefined in their module. Every definition is its own
  function here.
- BurgerTextRoundTrip: proved only for sizes and ingredient names without commas, and for lists
  other than `["Plain"]`. Outside these cases `Burger.__str__` cannot be read back uniquely (see
  PlainIsAmbiguous).

## Findings

| source | as written | input that shows it | evidently intended | confidence | as-written member | corrected member |
|---|---|---|---|---|---|---|
| rough.py:25-27 | the constructor raises only once `getInstance` has recorded an instance, and a successful construction is not recorded | on a fresh class, `ConfigurationManager()` followed by `ConfigurationManager.getInstance()` (the order of the demo at rough.py:37-38) hands out two distinct managers | direct construction is always refused (rough.py:14), so only one manager ever exists (rough.py:8) | medium; not executed | `Rough.DirectThenLazyMakesTwo` | `Rough.GuardedConfigurationManagerClass.GetInstance` |
