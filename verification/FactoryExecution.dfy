/**
 * Running the contract object itself: any sequence of invocations and closing
 * ledgers is the run the theorems speak of, and callbacks made under the lock
 * leave no trace on it.
 */
module FactoryExecution {
  import opened Common
  import opened CreatorPages
  import opened FactoryModel
  import opened FactoryContract
  import opened FactoryLock
  import opened FactoryRuns
  import opened FactoryMigrationRuns
  import opened FactoryRegistry
  import opened FactorySteps

  /** One event on the object. */
  method Execute(f: Factory, e: Event) returns (r: Reply)
    requires f.Valid()
    modifies f, f.creators
    ensures Turn(f.Snapshot(), r) == Apply(old(f.Snapshot()), e)
    ensures f.Valid()
  {
    ghost var w := f.Snapshot();
    match e {
      case Guarded(c) =>
        StepKeepsWellFormed(w, c);
        r := f.Invoke(c);
      case Admin(c) =>
        AdminStepKeepsWellFormed(w, c);
        r := f.InvokeAdmin(c);
      case Tick(n) =>
        f.CloseLedgers(n);
        r := Done([]);
    }
  }

  /**
   * A whole run on the object: it ends in the world of that run, with its replies, and keeps every
   * invariant of runs.
   */
  method RunAll(f: Factory, events: seq<Event>, ghost base: nat) returns (replies: seq<Reply>)
    requires f.Valid()
    modifies f, f.creators
    ensures f.Snapshot() == After(old(f.Snapshot()), events, |events|)
    ensures |replies| == |events|
    ensures forall i :: 0 <= i < |events| ==> replies[i] == Apply(After(old(f.Snapshot()), events, i), events[i]).reply
    ensures Inv(old(f.Snapshot()), base) ==> Inv(f.Snapshot(), base)
    ensures !old(f.Snapshot()).st.locked ==> !f.st.locked
    ensures old(f.Snapshot()).st.tokenCount <= U32_MAX ==> f.st.tokenCount <= U32_MAX
  {
    hide Apply, Inv, WellFormed;
    ghost var w := f.Snapshot();
    replies := [];
    for n := 0 to |events|
      invariant f.Valid() && f.Snapshot() == After(w, events, n)
      invariant |replies| == n
      invariant forall i :: 0 <= i < n ==> replies[i] == Apply(After(w, events, i), events[i]).reply
    {
      var r := Execute(f, events[n]);
      replies := replies + [r];
    }
    CountOnlyGrows(w, events, 0, |events|);
    if Inv(w, base) { RunKeepsInv(w, base, events, |events|); }
    if !w.st.locked { UnlockedAtEveryBoundary(w, events, |events|); }
  }

  /**
   * Two factories in the same world, one whose external contracts call back
   * whenever they like, one where those called under the lock stay silent: they
   * give the same reply and end in the same world.
   */
  method InvokeBoth(loud: Factory, silent: Factory, c: Call) returns (r: Reply, r': Reply)
    requires loud.Valid() && loud.Snapshot() == silent.Snapshot()
    requires loud != silent && loud.creators != silent.creators
    modifies loud, loud.creators, silent, silent.creators
    ensures r == r' && loud.Snapshot() == silent.Snapshot()
  {
    CallbacksChangeNothing(loud.Snapshot(), c);
    hide Step, WellFormed, QuietCall;
    r := loud.Invoke(c);
    r' := silent.Invoke(QuietCall(c));
  }

  /** `get_tokens_by_creator` on the object, wherever a run has taken it: exactly the slice of the creator's list. */
  method TokensByCreator(f: Factory, creator: Address, offset: nat, limit: nat, ghost base: nat) returns (out: seq<nat>)
    requires Inv(f.Snapshot(), base) && f.st.tokenCount <= U32_MAX && offset <= U32_MAX
    ensures out ==
      if creator in f.creators.counts then Slice(TokensOf(f.creators.View(), creator), offset, limit) else []
  {
    CreatorCountFits(f.Snapshot(), base, creator);
    out := f.creators.GetTokensByCreator(creator, offset, limit);
  }
}
