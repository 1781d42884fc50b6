/** Unwrapping decorated application factories (getRealFactory). */
module FactoryChain {

  /** An application factory: null, a decorator around a delegate, or any other factory. */
  datatype Factory = NoFactory | Decorator(delegate: Factory) | Undecorated(id: nat)

  /** The factory `base` wrapped in `n` decorators. */
  function Decorate(n: nat, base: Factory): Factory {
    if n == 0 then base else Decorator(Decorate(n - 1, base))
  }

  /** How many decorators wrap the real factory. */
  function DecoratorDepth(f: Factory): nat {
    if f.Decorator? then 1 + DecoratorDepth(f.delegate) else 0
  }

  /** The factory found by following delegates until one is not a decorator. */
  function GetRealFactory(f: Factory): (r: Factory)
    ensures !r.Decorator?
    ensures Decorate(DecoratorDepth(f), r) == f
  {
    if f.Decorator? then GetRealFactory(f.delegate) else f
  }

  /** Wrapping a real factory in any number of decorators and unwrapping it gives it back. */
  lemma {:induction false} UnwrapDecorated(n: nat, base: Factory)
    requires !base.Decorator?
    ensures GetRealFactory(Decorate(n, base)) == base
  {
    if n > 0 {
      UnwrapDecorated(n - 1, base);
    }
  }

  /** Unwrapping twice is unwrapping once. */
  lemma RealFactoryIsIdempotent(f: Factory)
    ensures GetRealFactory(GetRealFactory(f)) == GetRealFactory(f)
  {
  }
}
