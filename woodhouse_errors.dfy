/** The error hierarchy that lib/woodhouse.rb declares at its top:
    WoodhouseError < StandardError, four direct subclasses of it, and
    BailOut < FatalError. */
module WoodhouseErrors {
  import opened RubyClasses

  /** The six error classes Woodhouse declares. */
  predicate Declared(c: RClass)
  {
    c in {WoodhouseError, WorkerNotFoundError, ConnectionError, ConfigurationError, FatalError, BailOut}
  }

  /** Every declared error is a WoodhouseError and hence a StandardError, so a
      bare `rescue` catches all of them. */
  lemma DeclaredAreWoodhouseErrors(c: RClass)
    requires Declared(c)
    ensures IsA(c, WoodhouseError)
    ensures IsA(c, StandardError) && Rescuable(c)
  {
    IsATransitive(c, WoodhouseError, StandardError);
  }

  /** BailOut is a FatalError; the three other leaves are not, and no
      WoodhouseError is a subclass of any of its own leaves. */
  lemma FatalBranch()
    ensures IsA(BailOut, FatalError)
    ensures !IsA(WorkerNotFoundError, FatalError)
    ensures !IsA(ConnectionError, FatalError)
    ensures !IsA(ConfigurationError, FatalError)
    ensures !IsA(WoodhouseError, FatalError)
  {
    forall c | c in {WorkerNotFoundError, ConnectionError, ConfigurationError}
      ensures !IsA(c, FatalError)
    {
      if IsA(c, FatalError) {
        IsADepth(c, FatalError);
      }
    }
    if IsA(WoodhouseError, FatalError) {
      IsADepth(WoodhouseError, FatalError);
    }
  }

  /** Anything that is a FatalError, whether declared or an application's own
      subclass, is a WoodhouseError. */
  lemma FatalIsWoodhouse(c: RClass)
    requires IsA(c, FatalError)
    ensures IsA(c, WoodhouseError) && Rescuable(c)
  {
    IsATransitive(c, FatalError, WoodhouseError);
    IsATransitive(c, WoodhouseError, StandardError);
  }

  /** The four direct subclasses are pairwise unrelated: an error is at most
      one of them. */
  lemma {:induction false} LeavesDisjoint(c: RClass, a: RClass, b: RClass)
    requires a in {WorkerNotFoundError, ConnectionError, ConfigurationError, FatalError}
    requires b in {WorkerNotFoundError, ConnectionError, ConfigurationError, FatalError}
    requires IsA(c, a) && IsA(c, b)
    ensures a == b
  {
    IsAChain(c, a, b);
    if IsA(a, b) {
      IsADepth(a, b);
    } else {
      IsADepth(b, a);
    }
  }

}
