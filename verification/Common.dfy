/** Small vocabulary shared by the models: options, the possible fates of a remote
    call, and two counting facts about finite sets. */
module Common {

  datatype Option<+T> = None | Some(value: T)

  /** The errors the worker distinguishes.  `delay` is the retry delay in seconds a
      transient error carries; the number of attempts it allows is never overridden
      in the repository, so it is the constant `MAX_TRANSIENT_ATTEMPTS`. */
  datatype Error = Transient(delay: real) | Fatal | Other

  const MAX_TRANSIENT_ATTEMPTS: nat := 10

  /** What a remote call can do: take effect and return, or raise, and in that case
      either before or after its effect was applied on the other side. */
  datatype Outcome = Ok | Raised(err: Error, applied: bool) {
    predicate Applied() {
      Ok? || applied
    }
  }

  /** An injective finite map has no more entries than the set its values come from. */
  lemma {:induction false} InjectionBound<A, B>(f: map<A, B>, target: set<B>)
    requires forall a :: a in f ==> f[a] in target
    requires forall a, b :: a in f && b in f && f[a] == f[b] ==> a == b
    ensures |f| <= |target|
    decreases |f|
  {
    if |f| == 0 {
    } else {
      assert f.Keys != {};
      var a :| a in f.Keys;
      var rest := map x | x in f && x != a :: f[x];
      assert rest.Keys == f.Keys - {a};
      InjectionBound(rest, target - {f[a]});
      assert |target - {f[a]}| == |target| - 1;
      assert |rest.Keys| == |f.Keys| - 1;
    }
  }

  lemma {:induction false} SubsetBound<A>(small: set<A>, big: set<A>)
    requires small <= big
    ensures |small| <= |big|
    decreases |big|
  {
    if big == {} {
    } else {
      var a :| a in big;
      SubsetBound(small - {a}, big - {a});
      assert |big - {a}| == |big| - 1;
      assert |small - {a}| >= |small| - 1;
    }
  }
}
