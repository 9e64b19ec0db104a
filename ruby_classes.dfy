/** The part of Ruby's single-inheritance class tree that the modelled code
    observes through `kind_of?`, `.class.name` and `rescue`.

    A class is BasicObject, the root, or a named class with a superclass.
    The core classes and the classes the two modelled files declare are
    constants below; any other class (a worker class, an application error)
    is built with `Class(name, superclass)`.  Classes the modelled files only
    reference are placed as follows, an assumption because their definitions
    are not part of this model: Ganymede::GanymedeError and
    ActiveRecord::StatementInvalid under StandardError, NativeException under
    RuntimeError (as in JRuby), and Java::JavaLang::OutOfMemoryError under
    StandardError (so that a bare `rescue` sees it, which is what the code
    that tests for it relies on). */
module RubyClasses {

  datatype RClass = BasicObject | Class(name: string, superclass: RClass)

  const Object: RClass := Class("Object", BasicObject)
  const NilClass: RClass := Class("NilClass", Object)
  const Exception: RClass := Class("Exception", Object)
  const StandardError: RClass := Class("StandardError", Exception)
  const RuntimeError: RClass := Class("RuntimeError", StandardError)
  const ArgumentError: RClass := Class("ArgumentError", StandardError)

  // lib/woodhouse.rb
  const WoodhouseError: RClass := Class("Woodhouse::WoodhouseError", StandardError)
  const WorkerNotFoundError: RClass := Class("Woodhouse::WorkerNotFoundError", WoodhouseError)
  const ConnectionError: RClass := Class("Woodhouse::ConnectionError", WoodhouseError)
  const ConfigurationError: RClass := Class("Woodhouse::ConfigurationError", WoodhouseError)
  const FatalError: RClass := Class("Woodhouse::FatalError", WoodhouseError)
  const BailOut: RClass := Class("Woodhouse::BailOut", FatalError)

  // lib/ganymede/base.rb and the classes it refers to
  const GanymedeBase: RClass := Class("Ganymede::Base", Object)
  const GanymedeError: RClass := Class("Ganymede::GanymedeError", StandardError)
  const StatementInvalid: RClass := Class("ActiveRecord::StatementInvalid", StandardError)
  const NativeException: RClass := Class("NativeException", RuntimeError)
  const JavaOutOfMemoryError: RClass := Class("Java::JavaLang::OutOfMemoryError", StandardError)

  /** An exception object: its class and its message. */
  datatype RubyError = RubyError(cls: RClass, message: string)

  /** Distance from BasicObject. */
  function Depth(c: RClass): nat
  {
    if c == BasicObject then 0 else Depth(c.superclass) + 1
  }

  /** `Module#name`. */
  function Name(c: RClass): string
  {
    if c == BasicObject then "BasicObject" else c.name
  }

  /** `c <= k`: an instance of `c` answers `kind_of?(k)` with true. */
  predicate IsA(c: RClass, k: RClass)
  {
    c == k || (c.Class? && IsA(c.superclass, k))
  }

  /** A bare `rescue` (or `rescue => e`) catches exactly the StandardErrors. */
  predicate Rescuable(c: RClass)
  {
    IsA(c, StandardError)
  }

  /** An ancestor is never deeper than its descendant, and is as deep only
      when it is the same class. */
  lemma {:induction false} IsADepth(a: RClass, b: RClass)
    requires IsA(a, b)
    ensures Depth(b) <= Depth(a)
    ensures Depth(b) == Depth(a) ==> a == b
  {
    if a != b {
      IsADepth(a.superclass, b);
    }
  }

  lemma {:induction false} IsATransitive(a: RClass, b: RClass, c: RClass)
    requires IsA(a, b) && IsA(b, c)
    ensures IsA(a, c)
  {
    if a != b {
      IsATransitive(a.superclass, b, c);
    }
  }

  /** Single inheritance: the ancestors of a class form a chain, so any two
      of them are related. */
  lemma {:induction false} IsAChain(a: RClass, b: RClass, c: RClass)
    requires IsA(a, b) && IsA(a, c)
    ensures IsA(b, c) || IsA(c, b)
  {
    if a != b && a != c {
      IsAChain(a.superclass, b, c);
    }
  }

}
