# Ganymede / Woodhouse worker core in Dafny

This project models the part of the Woodhouse background-job library that
sits around each worker call:

- **Ganymede::Base**, the superclass of every worker:
  - `dispatch_to_worker_method` logs "received", calls the worker method, and logs "completed" or "raised exception".
  - It then decides whether an error escapes or is swallowed with a "WORKLING ERROR" line.
  - `method_missing` turns `async_foo` / `asynch_foo` on a worker class into a `Remote.run` request.
  - `inherited` appends each new worker class to the discovery list.
- **Woodhouse**:
  - the error hierarchy (`WoodhouseError` and its five subclasses);
  - the argument checks `expect_arg` and `expect_arg_or_nil`;
  - `camelize`;
  - the `GlobalMethods` accessors, with their lazily filled configuration and layout slots and dispatcher forwarding.

Modules:

- `RubyClasses` (ruby_classes.dfy) is a single-inheritance class tree with Ruby's `kind_of?` (`IsA`). It says which exceptions a bare `rescue` catches (`Rescuable`: the StandardError subtree).
- `WoodhouseErrors` (woodhouse_errors.dfy) holds the facts about the error hierarchy.
- `WoodhouseUtil` (woodhouse_util.dfy) models `expect_arg`, `expect_arg_or_nil` and `camelize`:
  - It defines Ruby's `split(/_/)`, which drops trailing empty fields.
  - It proves camelize against an independent one-pass reference definition (`CamelCase`).
- `WoodhouseGlobals` (woodhouse_globals.dfy) is `GlobalMethods` as a class with two nullable slots.
- `GanymedeBase` (ganymede_base.dfy) models:
  - the funnel as a method returning an event trace and an outcome;
  - the funnel's policy as a function (`Classify`), together with the lemmas about it;
  - the routing regular expression;
  - the discovery list as a class.
- `AsciiText` and `Wrappers` are helpers.

How the worker-call funnel behaves, following lib/ganymede/base.rb:44-55:

- Only StandardError descendants are rescued. Anything else escapes before "raised exception" is logged.
- A rescued error is re-raised only when it is one of the following:
  - a `Ganymede::GanymedeError`;
  - an `ActiveRecord::StatementInvalid` whose message matches `/memory/i`;
  - a Java `OutOfMemoryError` or a `NativeException`, when those constants are defined.
- Every other rescued error is swallowed.

Woodhouse's own errors descend from `StandardError` and not from `Ganymede::GanymedeError`. The comment at lib/ganymede/base.rb:35-37 speaks of raising Ganymede's own errors and swallowing the rest. The test at lib/ganymede/base.rb:46 names only `Ganymede::GanymedeError`, so the funnel swallows every Woodhouse error, `FatalError` and `BailOut` included. `WoodhouseErrorsAreSwallowed` states this.

## Model

| member | source | states |
|---|---|---|
| WoodhouseErrors.DeclaredAreWoodhouseErrors | lib/woodhouse.rb:2-7 | each of the six declared error classes is a WoodhouseError, hence a StandardError that a bare rescue catches |
| WoodhouseErrors.FatalBranch | lib/woodhouse.rb:2-7 | BailOut is a FatalError; WorkerNotFoundError, ConnectionError, ConfigurationError and WoodhouseError itself are not |
| WoodhouseErrors.FatalIsWoodhouse | lib/woodhouse.rb:6-7 | anything that is a FatalError (BailOut included) is a rescuable WoodhouseError |
| WoodhouseErrors.LeavesDisjoint | lib/woodhouse.rb:3-6 | the four direct subclasses of WoodhouseError are pairwise disjoint: no class is below two of them |
| RubyClasses.IsATransitive | lib/woodhouse.rb:2-7 | `kind_of?` over the class tree is transitive, which carries BailOut up to StandardError |
| RubyClasses.IsAChain | lib/woodhouse.rb:2-7 | the ancestors of a class form a chain (single inheritance) |
| WoodhouseUtil.ExpectArg | lib/woodhouse.rb:13-17 | nothing is raised exactly when the value is a kind of `klass`; otherwise an ArgumentError whose message is "expected NAME to be a KLASS, got VALUECLASS" |
| WoodhouseUtil.ExpectArgAcceptsSubclasses | lib/woodhouse.rb:13-17 | an instance of any subclass of `klass` passes |
| WoodhouseUtil.ExpectArgRaisesStandardError | lib/woodhouse.rb:15 | the raised ArgumentError is rescuable by a bare rescue |
| WoodhouseUtil.ExpectArgOrNil | lib/woodhouse.rb:19-21 | nil is always accepted; any other value is checked exactly as expect_arg checks it |
| WoodhouseUtil.ExpectArgOrNilAccepts | lib/woodhouse.rb:19-21 | nothing is raised iff the value is nil or a kind of `klass` |
| WoodhouseUtil.Pieces | lib/woodhouse.rb:25 | splitting at '_' yields one more field than there are underscores, none containing '_' |
| WoodhouseUtil.JoinPieces | lib/woodhouse.rb:25 | rejoining the fields with '_' gives back the original string (split is lossless before trailing empties are dropped) |
| WoodhouseUtil.DropTrailingEmpty | lib/woodhouse.rb:25 | Ruby's split keeps a prefix of the fields, drops only empty ones, and never ends with an empty field |
| WoodhouseUtil.Split | lib/woodhouse.rb:25 | `split(/_/)` yields fields free of '_', at most one more than there are underscores, and never a trailing empty field |
| WoodhouseUtil.Capitalize | lib/woodhouse.rb:25 | `capitalize` keeps the word's length and leaves no lower-case letter in front |
| WoodhouseUtil.CamelCase | lib/woodhouse.rb:24-26 | the one-pass reference camel-casing removes every underscore and keeps every other character |
| WoodhouseUtil.Camelize | lib/woodhouse.rb:24-26 | split/capitalize/join equals the one-pass reference: the first letter after each run of underscores (and at the start) upper-cased, all others lower-cased, underscores removed |
| WoodhouseUtil.CamelizeShape | lib/woodhouse.rb:24-26 | the result contains no '_' and is shorter than the input by exactly the number of underscores |
| WoodhouseUtil.CamelizeWord | lib/woodhouse.rb:24-26 | a word without '_' camelizes to its capitalization |
| WoodhouseUtil.CamelizeUnderscore | lib/woodhouse.rb:24-26 | camelize distributes over '_': camelize(a_b) is camelize(a) followed by camelize(b) |
| WoodhouseUtil.CamelizeTwoWords | lib/woodhouse.rb:24-26 | two underscore-free words joined by '_' give their capitalizations concatenated |
| WoodhouseUtil.CamelizeSnakeCase | lib/woodhouse.rb:24-26 | "foo_bar" becomes "FooBar" |
| WoodhouseUtil.CamelizeShoutingSnakeCase | lib/woodhouse.rb:24-26 | "FOO_BAR" also becomes "FooBar": capitalize lower-cases the rest of each word |
| WoodhouseUtil.CamelizeChangesInnerCapitals | lib/woodhouse.rb:24-26 | a word with an upper-case letter after its first is changed by camelize |
| WoodhouseUtil.CamelizeNotIdempotent | lib/woodhouse.rb:24-26 | "foo_bar" gives "FooBar", and camelizing that again gives "Foobar": camelize is not idempotent |
| WoodhouseUtil.CamelizeEmpty | lib/woodhouse.rb:24-26 | the empty string camelizes to the empty string |
| WoodhouseUtil.CamelizeStrayUnderscores | lib/woodhouse.rb:24-26 | a leading or trailing underscore does not change the result |
| WoodhouseGlobals.GlobalMethods.constructor | lib/woodhouse.rb:32-79 | both global slots start out nil |
| WoodhouseGlobals.GlobalMethods.GlobalConfiguration | lib/woodhouse.rb:38-40 | returns the stored configuration, storing the default first only if the slot is nil |
| WoodhouseGlobals.GlobalMethods.Configure | lib/woodhouse.rb:42-45 | fills the configuration slot the same way and yields the stored configuration |
| WoodhouseGlobals.GlobalMethods.GlobalLayout | lib/woodhouse.rb:47-49 | returns the stored layout, storing Layout.default first only if the slot is nil |
| WoodhouseGlobals.GlobalMethods.BuildLayout | lib/woodhouse.rb:51-54 | fills the layout slot with a new empty layout only if nil, initialises the configuration, and yields a builder over both stored objects |
| WoodhouseGlobals.GlobalMethods.Logger | lib/woodhouse.rb:34-36 | returns the global configuration's logger, initialising the configuration if needed |
| WoodhouseGlobals.GlobalMethods.Dispatcher | lib/woodhouse.rb:61-63 | returns the global configuration's dispatcher, initialising the configuration if needed |
| WoodhouseGlobals.GlobalMethods.Dispatch | lib/woodhouse.rb:65-67 | forwards `dispatch` with the arguments untouched to the global configuration's dispatcher |
| WoodhouseGlobals.GlobalMethods.UpdateJob | lib/woodhouse.rb:69-71 | forwards `update_job` with the arguments untouched to the global configuration's dispatcher |
| WoodhouseGlobals.LayoutSlotIsShared | lib/woodhouse.rb:47-54 | after `layout` fills the slot, `global_layout` returns the same layout and ignores Layout.default |
| WoodhouseGlobals.ConfigurationSlotIsShared | lib/woodhouse.rb:38-45 | the configuration a `configure` block sees is the one `global_configuration` later returns |
| GanymedeBase.DispatchToWorkerMethod | lib/ganymede/base.rb:38-60 | logs "received" with the uid and then calls the method with the options unchanged. A normal return comes back unchanged after "completed". A raise never logs "completed". A rescued error is logged once, with its class name and message. An unrescued one escapes with nothing more logged. A re-raised one leaves right after "raised exception", with nothing logged after it. The error escapes unchanged exactly when the policy re-raises it; otherwise it ends with the WORKLING ERROR line naming the class, method, options and error |
| GanymedeBase.Classify | lib/ganymede/base.rb:44-53 | an error goes unrescued iff it is not a StandardError; each re-raise rule fires only on its own class test (and, for the Java rules, only where the constant is defined); a swallowed error is rescued and escapes every rule |
| GanymedeBase.MentionsMemory | lib/ganymede/base.rb:47 | `/memory/i` matches iff some six consecutive characters spell "memory" in any case |
| GanymedeBase.FrameworkErrorsPropagate | lib/ganymede/base.rb:46 | every GanymedeError is re-raised, on every platform |
| GanymedeBase.StatementInvalidPropagatesIffMemory | lib/ganymede/base.rb:47 | a StatementInvalid escapes iff its message mentions memory, and then by the database-memory rule |
| GanymedeBase.WoodhouseErrorsAreSwallowed | lib/ganymede/base.rb:44-55 | every Woodhouse error is swallowed, on every platform |
| GanymedeBase.ArgumentErrorsAreSwallowed | lib/ganymede/base.rb:44-55 | the ArgumentError that expect_arg raises inside a worker is swallowed |
| GanymedeBase.PlatformConstantsOnlyAdd | lib/ganymede/base.rb:48-53 | defining more of the Java constants never makes the funnel swallow an error it used to re-raise |
| GanymedeBase.JavaOutOfMemoryPropagatesIffDefined | lib/ganymede/base.rb:48-50 | a Java OutOfMemoryError is re-raised iff its constant is defined, whatever the other constant and the message |
| GanymedeBase.NativeExceptionPropagatesIffDefined | lib/ganymede/base.rb:51-53 | a NativeException is re-raised iff its constant is defined, whatever the other constant and the message |
| GanymedeBase.WithoutJavaConstants | lib/ganymede/base.rb:46-55 | without the Java constants, a rescued error escapes iff it is a GanymedeError or a StatementInvalid mentioning memory |
| GanymedeBase.ClassifyIgnoresMessageCase | lib/ganymede/base.rb:47 | lower-casing an error's message never changes the funnel's decision |
| GanymedeBase.MentionsMemoryIgnoresCase | lib/ganymede/base.rb:47 | the memory test gives the same answer on the lower-cased message |
| GanymedeBase.MentionsMemoryExample | lib/ganymede/base.rb:47 | "Out of MEMORY" mentions memory |
| GanymedeBase.MentionsMemoryCounterexample | lib/ganymede/base.rb:47 | "Deadlock" does not |
| GanymedeBase.Dasherize | lib/ganymede/base.rb:65 | the class name with every '_' replaced by '-', the length unchanged |
| GanymedeBase.AsyncPrefixLength | lib/ganymede/base.rb:64 | the prefix is 7 long iff the name starts with "asynch_", 6 iff it starts with "async_", and 0 otherwise |
| GanymedeBase.ToLineEnd | lib/ganymede/base.rb:64 | `(.*)` captures the longest prefix without a newline, which stops at the first newline |
| GanymedeBase.MatchAsyncFrom | lib/ganymede/base.rb:64 | a capture made from one line start never contains a newline |
| GanymedeBase.AsyncMethodName | lib/ganymede/base.rb:64 | `$1` of `/^asynch?_(.*)/` never contains a newline |
| GanymedeBase.AsyncRoundTrip | lib/ganymede/base.rb:64 | for a one-line m, "async_"+m and "asynch_"+m both route to m |
| GanymedeBase.SingleLineRouting | lib/ganymede/base.rb:64 | on a one-line name, the capture is m iff the name is "async_"+m or "asynch_"+m |
| GanymedeBase.LaterLineRoutes | lib/ganymede/base.rb:64 | `^` also matches after a newline: "x\nasync_foo" routes to "foo" |
| GanymedeBase.FirstMatchingLineRoutes | lib/ganymede/base.rb:64 | with two matching lines, the leftmost match decides: "async_a\nasync_b" routes to "a" |
| GanymedeBase.PrefixMustStartTheName | lib/ganymede/base.rb:64 | "xasync_foo" does not route |
| GanymedeBase.MethodMissing | lib/ganymede/base.rb:63-68 | a matching name becomes Remote.run on the dasherized class name, the method captured by `$1` (AsyncMethodName) and the arguments untouched; any other name goes to super unchanged |
| GanymedeBase.MethodMissingRoutes | lib/ganymede/base.rb:63-68 | async_m and asynch_m both reach Remote.run with method m |
| GanymedeBase.Discovery.Inherited | lib/ganymede/base.rb:20-22 | appends exactly the new subclass to the end of the discovery list and keeps every entry a worker class |

## Left out

- Logging back-ends: `Ganymede.log_job` and `logger.error` are events in a trace that record the uid, tags, class name, message and WORKLING ERROR fields. Their formatting, the backtrace and `options.inspect` are not modelled.
- DispatchToWorkerMethod: the value returned in the swallow branch is whatever `logger.error` returns. It is modelled as `Swallow`, with no value.
- The worker method itself (`self.send`) is not modelled. Its return value or raised exception is an input.
- `Ganymede::Remote.run` and the runners are not part of this model. `method_missing` returns the call it would make as a `RemoteRun` value.
- Dasherize: ActiveSupport's `dasherize` is not part of this model. It is taken to replace '_' with '-'.
- `super` in `method_missing` (Ruby's NoMethodError path) is returned as a `Super` value and not followed.
- `cattr_accessor :logger` and the RAILS_DEFAULT_LOGGER default (lib/ganymede/base.rb:17-18) are logger plumbing with no logic.
- `initialize`/`create` (lib/ganymede/base.rb:24-33) only call an empty hook.
- `threading_safe?` (lib/woodhouse.rb:57-59) reads the interpreter version, which is outside the model.
- `watchdog` (lib/woodhouse.rb:73-75) returns a foreign singleton.
- The requires and autoloads at the end of lib/woodhouse.rb are not modelled, and neither is the commented-out `raise_exceptions?` line.
- NodeConfiguration, Layout and LayoutBuilder are not part of this model. The objects that `NodeConfiguration.default`, `Layout.default` and `Layout.new` would build are parameters.
- WoodhouseGlobals.GlobalMethods.Configure: the block is not run. The method returns the object it would be given, so changes made by the block are not modelled.
- WoodhouseGlobals.GlobalMethods.BuildLayout: the block is not run. The method returns the builder it would be given.
- Capitalize: case mapping is ASCII only. Ruby's Unicode `capitalize`/`downcase` can change a string's length, so CamelizeShape's length claim holds for the model's ASCII mapping.
- Foreign exception classes are placed in the class tree as follows:
  - `ActiveRecord::StatementInvalid` under StandardError;
  - `NativeException` under RuntimeError;
  - Java's `OutOfMemoryError` under StandardError. The test for it at lib/ganymede/base.rb:48-50 runs only inside a bare `rescue`, which catches only StandardErrors. The placement assumes the test can fire.
  - `Ganymede::GanymedeError` under StandardError.
- Class identity: two classes with the same name and superclass are the same class in the model.
- Ganymede::Discovery is not part of this model. Its `discovered` list is the field of the `Discovery` class.
- `kind_of?` with a module (a mixin that a class includes) as `klass` is not modelled. `RClass` has only classes, so `expect_arg` checks only against the superclass chain.
- WoodhouseUtil.ExpectArg: values are `nil` or instances of classes below Object. An instance of a class built directly on BasicObject has no `kind_of?` or `nil?`, so Ruby raises NoMethodError at lib/woodhouse.rb:14 and :20; such values are outside the `RValue` type, and `nil` is the only instance of NilClass.
