/** Ganymede::Base, the superclass of every worker: the error-classification
    funnel around a worker call, the `async_`/`asynch_` class-level routing,
    and the discovery list that each new subclass joins.

    Logging is modelled as a trace of events; the worker call's outcome and
    the platform's constants are inputs. */
module GanymedeBase {
  import opened Wrappers
  import opened RubyClasses
  import opened AsciiText
  import WoodhouseUtil

  // ---------------------------------------------------------------------
  // The worker-call funnel

  /** A job's options hash; the key "uid" stands for the symbol :uid. */
  type Options = map<string, string>

  /** `options[:uid]`, nil when the key is absent. */
  function Uid(options: Options): Option<string>
  {
    if "uid" in options then Some(options["uid"]) else None
  }

  /** Whether `Java::JavaLang::OutOfMemoryError` and `NativeException` are
      defined on the running interpreter (both are, on JRuby). */
  datatype Platform = Platform(javaOutOfMemoryDefined: bool, nativeExceptionDefined: bool)

  /** What `self.send(method, options)` did. */
  datatype CallResult<V> = Returned(value: V) | Raised(error: RubyError)

  /** The event argument of `Ganymede.log_job`. */
  datatype JobEvent = Received | Completed | RaisedException(errorType: string, message: string)

  /** What the funnel does that can be observed, in order. */
  datatype Event =
    | JobLog(uid: Option<string>, event: JobEvent)
    | Invoke(workerMethod: string, options: Options)
    | WorklingError(worker: string, workerMethod: string, options: Options, error: RubyError)

  /** How `dispatch_to_worker_method` ends: it returns the worker's value,
      lets an exception escape, or swallows it. */
  datatype Outcome<V> = ReturnValue(value: V) | Propagate(error: RubyError) | Swallow

  /** `msg[i..i+6]` matches /memory/i. */
  predicate MemoryAt(msg: string, i: int)
    requires 0 <= i && i + 6 <= |msg|
  {
    DownChar(msg[i]) == 'm' && DownChar(msg[i + 1]) == 'e' && DownChar(msg[i + 2]) == 'm' &&
    DownChar(msg[i + 3]) == 'o' && DownChar(msg[i + 4]) == 'r' && DownChar(msg[i + 5]) == 'y'
  }

  /** `msg =~ /memory/i`, read as a Boolean. No character outside ASCII
      case-folds onto one of the letters of "memory", so ASCII lowering is
      exact here. */
  function MentionsMemory(msg: string): (found: bool)
    ensures found <==> exists i :: 0 <= i && i + 6 <= |msg| && MemoryAt(msg, i)
  {
    if |msg| < 6 then false
    else if MemoryAt(msg, 0) then true
    else
      var found := MentionsMemory(msg[1..]);
      assert found ==> exists i :: 0 <= i && i + 6 <= |msg| && MemoryAt(msg, i) by {
        if found {
          var j :| 0 <= j && j + 6 <= |msg| - 1 && MemoryAt(msg[1..], j);
          assert MemoryAt(msg, j + 1);
        }
      }
      assert (exists i :: 0 <= i && i + 6 <= |msg| && MemoryAt(msg, i)) ==> found by {
        if i :| 0 <= i && i + 6 <= |msg| && MemoryAt(msg, i) {
          assert MemoryAt(msg[1..], i - 1);
        }
      }
      found
  }

  /** Which rule re-raises an error. */
  datatype Rule = FrameworkError | DatabaseMemory | JavaOutOfMemory | Native

  /** What the funnel decides for a raised error. */
  datatype Disposition = Unrescued | Reraised(rule: Rule) | Swallowed

  /** The funnel's policy, rule by rule: an exception that is not a
      StandardError is never rescued; a rescued one is re-raised when it is a
      Ganymede::GanymedeError, an ActiveRecord::StatementInvalid whose message
      mentions memory, or (where the constant exists) a Java
      OutOfMemoryError or a NativeException; anything else is swallowed. */
  function Classify(e: RubyError, p: Platform): (d: Disposition)
    // Only an exception the bare rescue misses goes unrescued.
    ensures d == Unrescued <==> !Rescuable(e.cls)
    // Each rule fires only on its own condition.
    ensures d == Reraised(FrameworkError) ==> IsA(e.cls, GanymedeError)
    ensures d == Reraised(DatabaseMemory) ==> IsA(e.cls, StatementInvalid) && MentionsMemory(e.message)
    ensures d == Reraised(JavaOutOfMemory) ==> p.javaOutOfMemoryDefined && IsA(e.cls, JavaOutOfMemoryError)
    ensures d == Reraised(Native) ==> p.nativeExceptionDefined && IsA(e.cls, NativeException)
    // A swallowed error escapes every rule.
    ensures d == Swallowed ==>
      Rescuable(e.cls) && !IsA(e.cls, GanymedeError) && !(IsA(e.cls, StatementInvalid) && MentionsMemory(e.message)) &&
      !(p.javaOutOfMemoryDefined && IsA(e.cls, JavaOutOfMemoryError)) &&
      !(p.nativeExceptionDefined && IsA(e.cls, NativeException))
  {
    if !Rescuable(e.cls) then Unrescued
    else if IsA(e.cls, GanymedeError) then Reraised(FrameworkError)
    else if IsA(e.cls, StatementInvalid) && MentionsMemory(e.message) then Reraised(DatabaseMemory)
    else if p.javaOutOfMemoryDefined && IsA(e.cls, JavaOutOfMemoryError) then Reraised(JavaOutOfMemory)
    else if p.nativeExceptionDefined && IsA(e.cls, NativeException) then Reraised(Native)
    else Swallowed
  }

  /** `worker_instance.dispatch_to_worker_method(method, options)`, where
      `worker` is the instance's class and `call` what the worker method did. */
  method DispatchToWorkerMethod<V>(worker: RClass, workerMethod: string, options: Options,
                                   call: CallResult<V>, platform: Platform)
    returns (trace: seq<Event>, outcome: Outcome<V>)
    // "received" is logged with the job's uid, then the worker method is
    // invoked with the options unchanged.
    ensures |trace| >= 2
    ensures trace[0] == JobLog(Uid(options), Received)
    ensures trace[1] == Invoke(workerMethod, options)
    // On a normal return the value comes back unchanged, after "completed".
    ensures call.Returned? ==> outcome == ReturnValue(call.value)
    ensures call.Returned? ==> trace == [JobLog(Uid(options), Received), Invoke(workerMethod, options),
                                         JobLog(Uid(options), Completed)]
    // On a raise "completed" never appears.
    ensures call.Raised? ==> JobLog(Uid(options), Completed) !in trace
    // A rescued error is logged exactly once, with its class name and
    // message, right after the call and before the decision.
    ensures call.Raised? && Rescuable(call.error.cls) ==>
      |trace| >= 3 &&
      trace[2] == JobLog(Uid(options), RaisedException(Name(call.error.cls), call.error.message)) &&
      forall i :: 0 <= i < |trace| && trace[i].JobLog? && trace[i].event.RaisedException? ==> i == 2
    // A re-raised error leaves right after "raised exception" is logged.
    ensures call.Raised? && Rescuable(call.error.cls) && Classify(call.error, platform) != Swallowed ==>
      |trace| == 3
    // An error the rescue does not catch escapes with nothing logged after the call.
    ensures call.Raised? && !Rescuable(call.error.cls) ==>
      trace == [JobLog(Uid(options), Received), Invoke(workerMethod, options)]
    // The error escapes, unchanged, exactly when the policy does not swallow it.
    ensures outcome.Propagate? <==> call.Raised? && Classify(call.error, platform) != Swallowed
    ensures outcome.Propagate? ==> outcome.error == call.error
    // A swallowed error ends with the WORKLING ERROR line naming class,
    // method, options and error.
    ensures outcome.Swallow? <==> call.Raised? && Classify(call.error, platform) == Swallowed
    ensures outcome.Swallow? ==>
      |trace| == 4 && trace[3] == WorklingError(Name(worker), workerMethod, options, call.error)
  {
    var uid := Uid(options);
    trace := [JobLog(uid, Received), Invoke(workerMethod, options)];
    match call
    case Returned(v) =>
      trace := trace + [JobLog(uid, Completed)];
      outcome := ReturnValue(v);
    case Raised(e) =>
      if !Rescuable(e.cls) {
        outcome := Propagate(e);
        return;
      }
      trace := trace + [JobLog(uid, RaisedException(Name(e.cls), e.message))];
      if IsA(e.cls, GanymedeError) {
        outcome := Propagate(e);
        return;
      }
      if IsA(e.cls, StatementInvalid) && MentionsMemory(e.message) {
        outcome := Propagate(e);
        return;
      }
      if platform.javaOutOfMemoryDefined {
        if IsA(e.cls, JavaOutOfMemoryError) {
          outcome := Propagate(e);
          return;
        }
      }
      if platform.nativeExceptionDefined {
        if IsA(e.cls, NativeException) {
          outcome := Propagate(e);
          return;
        }
      }
      trace := trace + [WorklingError(Name(worker), workerMethod, options, e)];
      outcome := Swallow;
  }

  /** Neither class is a subclass of the other. */
  predicate Apart(a: RClass, b: RClass)
  {
    !IsA(a, b) && !IsA(b, a)
  }

  /** Two classes of equal depth that differ are apart. */
  lemma Unrelated(a: RClass, b: RClass)
    requires a != b && Depth(a) == Depth(b)
    ensures Apart(a, b)
  {
    if IsA(a, b) { IsADepth(a, b); }
    if IsA(b, a) { IsADepth(b, a); }
  }

  /** A class below `a` is not below anything apart from `a`. */
  lemma NotBelowBoth(c: RClass, a: RClass, b: RClass)
    requires IsA(c, a) && Apart(a, b)
    ensures !IsA(c, b)
  {
    if IsA(c, b) { IsAChain(c, a, b); }
  }

  /** A direct subclass of StandardError other than RuntimeError is apart
      from NativeException, which sits below RuntimeError. */
  lemma ApartFromNativeException(k: RClass)
    requires k in {StatementInvalid, WoodhouseError, ArgumentError, GanymedeError, JavaOutOfMemoryError}
    ensures Apart(k, NativeException)
  {
    Unrelated(k, RuntimeError);
    if IsA(k, NativeException) { IsADepth(k, NativeException); }
  }

  /** The classes the funnel tests for are apart from one another and from
      the other direct subclasses of StandardError that the model names. */
  lemma ApartFromFunnelClasses(k: RClass)
    requires k in {StatementInvalid, WoodhouseError, ArgumentError}
    ensures k != StatementInvalid ==> Apart(k, StatementInvalid)
    ensures Apart(k, GanymedeError) && Apart(k, JavaOutOfMemoryError) && Apart(k, NativeException)
  {
    if k != StatementInvalid { Unrelated(k, StatementInvalid); }
    Unrelated(k, GanymedeError);
    Unrelated(k, JavaOutOfMemoryError);
    ApartFromNativeException(k);
  }

  /** Every error below a StandardError that is apart from the four classes
      the funnel tests for is swallowed. */
  lemma SwallowedBelow(e: RubyError, p: Platform, k: RClass)
    requires IsA(e.cls, k) && IsA(k, StandardError)
    requires Apart(k, GanymedeError) && Apart(k, StatementInvalid)
    requires Apart(k, JavaOutOfMemoryError) && Apart(k, NativeException)
    ensures Classify(e, p) == Swallowed
  {
    IsATransitive(e.cls, k, StandardError);
    NotBelowBoth(e.cls, k, GanymedeError);
    NotBelowBoth(e.cls, k, StatementInvalid);
    NotBelowBoth(e.cls, k, JavaOutOfMemoryError);
    NotBelowBoth(e.cls, k, NativeException);
  }

  /** Any Ganymede::GanymedeError, its subclasses included, is re-raised,
      whatever its message and the platform. */
  lemma FrameworkErrorsPropagate(e: RubyError, p: Platform)
    requires IsA(e.cls, GanymedeError)
    ensures Classify(e, p) == Reraised(FrameworkError)
  {
    IsATransitive(e.cls, GanymedeError, StandardError);
  }

  /** An ActiveRecord::StatementInvalid is re-raised if and only if its
      message mentions memory, on every platform. */
  lemma StatementInvalidPropagatesIffMemory(e: RubyError, p: Platform)
    requires IsA(e.cls, StatementInvalid)
    ensures Classify(e, p) != Swallowed <==> MentionsMemory(e.message)
    ensures MentionsMemory(e.message) ==> Classify(e, p) == Reraised(DatabaseMemory)
  {
    BelowStatementInvalid(e.cls);
  }

  lemma BelowStatementInvalid(c: RClass)
    requires IsA(c, StatementInvalid)
    ensures Rescuable(c)
    ensures !IsA(c, GanymedeError) && !IsA(c, JavaOutOfMemoryError) && !IsA(c, NativeException)
  {
    ApartFromFunnelClasses(StatementInvalid);
    IsATransitive(c, StatementInvalid, StandardError);
    NotBelowBoth(c, StatementInvalid, GanymedeError);
    NotBelowBoth(c, StatementInvalid, JavaOutOfMemoryError);
    NotBelowBoth(c, StatementInvalid, NativeException);
  }

  /** A Java OutOfMemoryError is re-raised exactly where its constant is
      defined, whatever the other constant and the message. */
  lemma JavaOutOfMemoryPropagatesIffDefined(e: RubyError, p: Platform)
    requires IsA(e.cls, JavaOutOfMemoryError)
    ensures Classify(e, p) != Swallowed <==> p.javaOutOfMemoryDefined
    ensures p.javaOutOfMemoryDefined ==> Classify(e, p) == Reraised(JavaOutOfMemory)
  {
    IsATransitive(e.cls, JavaOutOfMemoryError, StandardError);
    Unrelated(JavaOutOfMemoryError, GanymedeError);
    Unrelated(JavaOutOfMemoryError, StatementInvalid);
    ApartFromNativeException(JavaOutOfMemoryError);
    NotBelowBoth(e.cls, JavaOutOfMemoryError, GanymedeError);
    NotBelowBoth(e.cls, JavaOutOfMemoryError, StatementInvalid);
    NotBelowBoth(e.cls, JavaOutOfMemoryError, NativeException);
  }

  /** A NativeException is re-raised exactly where its constant is defined,
      whatever the other constant and the message. */
  lemma NativeExceptionPropagatesIffDefined(e: RubyError, p: Platform)
    requires IsA(e.cls, NativeException)
    ensures Classify(e, p) != Swallowed <==> p.nativeExceptionDefined
    ensures p.nativeExceptionDefined ==> Classify(e, p) == Reraised(Native)
  {
    IsATransitive(e.cls, NativeException, StandardError);
    ApartFromNativeException(GanymedeError);
    ApartFromNativeException(StatementInvalid);
    ApartFromNativeException(JavaOutOfMemoryError);
    NotBelowBoth(e.cls, NativeException, GanymedeError);
    NotBelowBoth(e.cls, NativeException, StatementInvalid);
    NotBelowBoth(e.cls, NativeException, JavaOutOfMemoryError);
  }

  /** The errors Woodhouse declares are not Ganymede errors: the funnel
      swallows every one of them, FatalError and BailOut included. */
  lemma WoodhouseErrorsAreSwallowed(e: RubyError, p: Platform)
    requires IsA(e.cls, WoodhouseError)
    ensures Classify(e, p) == Swallowed
  {
    ApartFromFunnelClasses(WoodhouseError);
    SwallowedBelow(e, p, WoodhouseError);
  }

  /** The argument error that `expect_arg` raises inside a worker is
      swallowed too. */
  lemma ArgumentErrorsAreSwallowed(name: string, klass: RClass, value: WoodhouseUtil.RValue, p: Platform)
    requires WoodhouseUtil.ExpectArg(name, klass, value).Some?
    ensures Classify(WoodhouseUtil.ExpectArg(name, klass, value).value, p) == Swallowed
  {
    ApartFromFunnelClasses(ArgumentError);
    SwallowedBelow(WoodhouseUtil.ExpectArg(name, klass, value).value, p, ArgumentError);
  }

  /** Defining a platform constant only adds reasons to re-raise: an error
      that propagates without it still propagates with it. */
  lemma PlatformConstantsOnlyAdd(e: RubyError, p: Platform, q: Platform)
    requires p.javaOutOfMemoryDefined ==> q.javaOutOfMemoryDefined
    requires p.nativeExceptionDefined ==> q.nativeExceptionDefined
    requires Classify(e, p) != Swallowed
    ensures Classify(e, q) != Swallowed
  {
  }

  /** Where the Java constants are not defined, only the framework and the
      database-memory rules re-raise. */
  lemma WithoutJavaConstants(e: RubyError)
    requires Rescuable(e.cls)
    ensures Classify(e, Platform(false, false)) != Swallowed <==>
      IsA(e.cls, GanymedeError) || (IsA(e.cls, StatementInvalid) && MentionsMemory(e.message))
  {
  }

  /** The memory test ignores case: lower-casing an error's message does not
      change the decision. */
  lemma ClassifyIgnoresMessageCase(c: RClass, msg: string, p: Platform)
    ensures Classify(RubyError(c, Down(msg)), p) == Classify(RubyError(c, msg), p)
  {
    MentionsMemoryIgnoresCase(msg);
  }

  lemma MentionsMemoryIgnoresCase(msg: string)
    ensures MentionsMemory(Down(msg)) == MentionsMemory(msg)
  {
    var d := Down(msg);
    forall i | 0 <= i && i + 6 <= |msg|
      ensures MemoryAt(d, i) == MemoryAt(msg, i)
    {
      DownAt(msg, i);
      DownAt(msg, i + 1);
      DownAt(msg, i + 2);
      DownAt(msg, i + 3);
      DownAt(msg, i + 4);
      DownAt(msg, i + 5);
    }
  }

  /** The match is anywhere in the message and in any case. */
  lemma MentionsMemoryExample()
    ensures MentionsMemory("Out of MEMORY")
  {
    assert MemoryAt("Out of MEMORY", 7);
  }

  /** A message with no "memory" in it does not match. */
  lemma MentionsMemoryCounterexample()
    ensures !MentionsMemory("Deadlock")
  {
    var s := "Deadlock";
    forall i | 0 <= i && i + 6 <= |s| ensures !MemoryAt(s, i) {
      assert DownChar(s[i]) != 'm';
    }
  }

  // ---------------------------------------------------------------------
  // Class-level async routing

  /** `ActiveSupport#dasherize`: underscores become dashes. */
  function Dasherize(s: string): (r: string)
    ensures |r| == |s|
    ensures forall i :: 0 <= i < |s| ==> r[i] == if s[i] == '_' then '-' else s[i]
  {
    if s == [] then [] else [if s[0] == '_' then '-' else s[0]] + Dasherize(s[1..])
  }

  /** Length of the `asynch?_` prefix that `t` starts with, or 0. The regexp
      tries the longer form first (`h?` is greedy). */
  function AsyncPrefixLength(t: string): (n: nat)
    ensures n in {0, 6, 7} && n <= |t|
    ensures n == 7 <==> |t| >= 7 && t[..7] == "asynch_"
    ensures n == 6 <==> |t| >= 6 && t[..6] == "async_"
  {
    if |t| >= 7 && t[..7] == "asynch_" then
      assert t[5] == 'h';
      7
    else if |t| >= 6 && t[..6] == "async_" then 6
    else 0
  }

  /** Where Ruby's `^` matches: the start of the string or of a line. */
  predicate LineStart(s: string, p: nat)
    requires p <= |s|
  {
    p == 0 || s[p - 1] == '\n'
  }

  /** What `(.*)` captures from `t`: everything up to the first newline. */
  function ToLineEnd(t: string): (r: string)
    ensures |r| <= |t| && r == t[..|r|]
    ensures '\n' !in r
    ensures |r| < |t| ==> t[|r|] == '\n'
  {
    if t == [] || t[0] == '\n' then [] else [t[0]] + ToLineEnd(t[1..])
  }

  /** The leftmost match of /^asynch?_(.*)/ at or after position `p`, as its
      capture. */
  function MatchAsyncFrom(s: string, p: nat): (m: Option<string>)
    requires p <= |s|
    ensures m.Some? ==> '\n' !in m.value
    decreases |s| - p
  {
    if LineStart(s, p) && AsyncPrefixLength(s[p..]) > 0 then
      Some(ToLineEnd(s[p + AsyncPrefixLength(s[p..])..]))
    else if p == |s| then None
    else MatchAsyncFrom(s, p + 1)
  }

  /** `method.to_s =~ /^asynch?_(.*)/` and its `$1`. */
  function AsyncMethodName(name: string): (m: Option<string>)
    ensures m.Some? ==> '\n' !in m.value
  {
    MatchAsyncFrom(name, 0)
  }

  /** What a class-level call to an unknown name turns into. */
  datatype ClassCall<A> =
    | RemoteRun(worker: string, workerMethod: string, args: seq<A>)
    | Super(name: string, args: seq<A>)

  /** `Base.method_missing(method, *args)` on the worker class `cls`. */
  function MethodMissing<A>(cls: RClass, name: string, args: seq<A>): (r: ClassCall<A>)
    ensures r.RemoteRun? <==> AsyncMethodName(name).Some?
    ensures r.RemoteRun? ==> r.worker == Dasherize(Name(cls)) && r.workerMethod == AsyncMethodName(name).value
    ensures r.RemoteRun? ==> '\n' !in r.workerMethod && r.args == args
    ensures r.Super? ==> r.name == name && r.args == args
  {
    match AsyncMethodName(name)
    case Some(m) => RemoteRun(Dasherize(Name(cls)), m, args)
    case None => Super(name, args)
  }

  lemma {:induction false} ToLineEndSingleLine(t: string)
    requires '\n' !in t
    ensures ToLineEnd(t) == t
  {
    if t != [] {
      ToLineEndSingleLine(t[1..]);
    }
  }

  /** In a name with no newline, `^` matches only at the start. */
  lemma {:induction false} NoLaterLineStart(s: string, p: nat)
    requires '\n' !in s && 0 < p <= |s|
    ensures MatchAsyncFrom(s, p) == None
    decreases |s| - p
  {
    assert s[p - 1] in s;
    if p < |s| {
      NoLaterLineStart(s, p + 1);
    }
  }

  /** Both prefixes route to the rest of the name, "async_" alone routing to "". */
  lemma AsyncRoundTrip(m: string)
    requires '\n' !in m
    ensures AsyncMethodName("async_" + m) == Some(m)
    ensures AsyncMethodName("asynch_" + m) == Some(m)
  {
    ToLineEndSingleLine(m);
    var a := "async_" + m;
    assert a[..6] == "async_" && a[6..] == m;
    var b := "asynch_" + m;
    assert b[..7] == "asynch_" && b[7..] == m;
  }

  /** For a one-line name, routing happens exactly for the two prefixes, and
      the routed name is what follows the prefix. */
  lemma SingleLineRouting(name: string, m: string)
    requires '\n' !in name
    ensures AsyncMethodName(name) == Some(m) <==> name == "async_" + m || name == "asynch_" + m
  {
    var n := AsyncPrefixLength(name);
    if n > 0 {
      ToLineEndSingleLine(name[n..]);
      assert name == name[..n] + name[n..];
      if name == "async_" + m || name == "asynch_" + m {
        AsyncRoundTrip(m);
      }
    } else {
      if |name| > 0 {
        NoLaterLineStart(name, 1);
      }
    }
  }

  /** The routed call carries the dasherized class name, the suffix, and the
      original arguments. */
  lemma MethodMissingRoutes<A>(cls: RClass, m: string, args: seq<A>)
    requires '\n' !in m
    ensures MethodMissing(cls, "async_" + m, args) == RemoteRun(Dasherize(Name(cls)), m, args)
    ensures MethodMissing(cls, "asynch_" + m, args) == RemoteRun(Dasherize(Name(cls)), m, args)
  {
    AsyncRoundTrip(m);
  }

  /** Ruby's `^` also matches after a newline, so a prefix on a later line of
      the name routes as well. */
  lemma LaterLineRoutes()
    ensures AsyncMethodName("x\nasync_foo") == Some("foo")
  {
    var s := "x\nasync_foo";
    assert !LineStart(s, 1);
    assert LineStart(s, 2);
    assert s[2..] == "async_foo";
    assert AsyncPrefixLength(s[2..]) == 6;
    assert s[8..] == "foo";
    ToLineEndSingleLine("foo");
    assert MatchAsyncFrom(s, 2) == Some("foo");
  }

  /** With two matching lines, the first one decides. */
  lemma FirstMatchingLineRoutes()
    ensures AsyncMethodName("async_a\nasync_b") == Some("a")
  {
    var s := "async_a\nasync_b";
    assert s[..6] == "async_";
    assert s[..7] != "asynch_" by { assert s[5] == '_'; }
    assert AsyncPrefixLength(s) == 6;
    assert s[6..] == "a\nasync_b";
    assert ToLineEnd(s[6..]) == "a" by {
      assert s[7] == '\n';
    }
  }

  /** Without a line start in front of it, the prefix does not route. */
  lemma PrefixMustStartTheName()
    ensures AsyncMethodName("xasync_foo") == None
  {
    var t := "xasync_foo";
    assert AsyncPrefixLength(t) == 0 by { assert t[0] == 'x'; }
    NoLaterLineStart(t, 1);
  }

  // ---------------------------------------------------------------------
  // Discovery

  /** A class defined directly or indirectly below Ganymede::Base. */
  predicate IsWorkerClass(c: RClass)
  {
    c.Class? && IsA(c.superclass, GanymedeBase)
  }

  /** `Ganymede::Discovery.discovered`, the list that `Base.inherited`
      appends to. */
  class Discovery {
    var discovered: seq<RClass>

    ghost predicate Valid()
      reads this
    {
      forall i :: 0 <= i < |discovered| ==> IsWorkerClass(discovered[i])
    }

    constructor ()
      ensures Valid() && discovered == []
    {
      discovered := [];
    }

    /** `Base.inherited(subclass)`, which Ruby runs when `subclass` is
        defined below Base. */
    method Inherited(subclass: RClass)
      requires Valid()
      requires IsWorkerClass(subclass)
      modifies this
      ensures Valid()
      ensures discovered == old(discovered) + [subclass]
    {
      discovered := discovered + [subclass];
    }
  }

}
