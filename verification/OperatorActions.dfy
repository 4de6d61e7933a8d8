/** Operator actions on the validation tables: recovery sweeps, workflow cancellation, and control of
    the provider breaker. */
module OperatorActions {
  import opened Outcomes
  import opened CostAllocation
  import opened AutoReviewPolicy
  import opened ValidationProtocol
  import opened CallRows
  import opened ValidationStore

  const MIN_LIMIT := 1
  const MAX_LIMIT := 1_000

  predicate Recoverable(c: Call, now: int, force: bool) { c.status == Claimed && (force || c.leaseExpires <= now) }

  /** One transaction per selected call, in order; the ones in `failing` raise and change nothing. */
  function Sweep(d: Durable, keys: seq<CallKey>, now: int, force: bool, failing: set<CallKey>): (Durable, nat, nat) {
    if keys == [] then (d, 0, 0)
    else
      var (before, recovered, failures) := Sweep(d, keys[..|keys| - 1], now, force, failing);
      var key := keys[|keys| - 1];
      if key in failing then (before, recovered, failures + 1)
      else
        var (after, n) := AdminRecoverTx(before, key, now, force);
        (after, recovered + n, failures)
  }

  class OperatorConsole {
    const db: Tables

    constructor (db: Tables)
      ensures this.db == db
    {
      this.db := db;
    }

    method RecoverValidation(key: CallKey, now: int, force: bool) returns (n: nat)
      modifies db
      ensures (db.View(), n) == AdminRecoverTx(old(db.View()), key, now, force)
    {
      if key !in db.calls || db.calls[key].status != Claimed || (!force && db.calls[key].leaseExpires > now) {
        return 0;
      }
      var call := db.calls[key];
      var attempted := call.attempts == 1;
      var children := call.children;
      for i := 0 to |children|
        invariant |children| == |call.children|
        invariant forall k :: 0 <= k < i ==> children[k] == ZeroedChildren(call.children)[k]
        invariant forall k :: i <= k < |children| ==> children[k] == call.children[k]
      {
        if children[i].status == Claimed {
          children := children[i := children[i].(status := Failed, reasons := [ReasonCode.ValidatorUnavailable], charge := ZERO_CHARGE)];
        }
      }
      assert children == ZeroedChildren(call.children);
      db.calls := db.calls[key := call.(status := Failed, leaseToken := None, terminalAt := Some(now),
                                        charged := Some(if attempted then call.terms.reserved else ZERO_CHARGE), children := children)];
      return 1;
    }

    /** Recovers the selected calls one transaction at a time and reports how it went. */
    method Recover(limit: int, expired: seq<CallKey>, now: int, failing: set<CallKey>) returns (r: Result<(nat, nat)>)
      modifies db
      ensures r.Ok? <==> MIN_LIMIT <= limit <= MAX_LIMIT
      ensures r.Err? ==> db.View() == old(db.View())
      ensures r.Ok? ==> (db.View(), r.value.0, r.value.1) == Sweep(old(db.View()), expired, now, false, failing)
    {
      if !(MIN_LIMIT <= limit <= MAX_LIMIT) {
        return Err("limit must be between 1 and 1000");
      }
      var recovered, failures := 0, 0;
      for i := 0 to |expired|
        invariant (db.View(), recovered, failures) == Sweep(old(db.View()), expired[..i], now, false, failing)
      {
        hide AdminRecoverTx;
        assert expired[..i + 1][..i] == expired[..i];
        if expired[i] in failing {
          failures := failures + 1;
        } else {
          var n := RecoverValidation(expired[i], now, false);
          recovered := recovered + n;
        }
      }
      assert expired[..|expired|] == expired;
      return Ok((recovered, failures));
    }

    /** Settles every open call of the workflow, expired or not. */
    method CancelWorkflow(open: seq<CallKey>, now: int)
      modifies db
      ensures db.View() == Sweep(old(db.View()), open, now, true, {}).0
    {
      for i := 0 to |open|
        invariant db.View() == Sweep(old(db.View()), open[..i], now, true, {}).0
      {
        hide AdminRecoverTx;
        assert open[..i + 1][..i] == open[..i];
        var n := RecoverValidation(open[i], now, true);
      }
      assert open[..|open|] == open;
    }

    method AuthorizeInitialProviderPolicy(policy: nat, env: Env) returns (r: Result<()>)
      modifies db
      ensures (db.View(), r) == AuthorizeInitialTx(old(db.View()), policy, env)
    {
      if policy != env.codePolicy {
        return Err("provider policy is not in the registry");
      }
      if env.runtimeKey.None? {
        return Err("runtime key state is unavailable");
      }
      if db.safety.Some? {
        return Err("provider safety row already exists");
      }
      db.safety := Some(Safety(1, policy, false, 0, 0));
      db.events := db.events + [SafetyEvent(1, InitialAuthorized, 0, 1, false, false)];
      db.safety := Some(db.safety.value.(lastSequence := 1));
      return Ok(());
    }

    method ClearProviderBreaker(expectedVersion: nat, policy: nat, env: Env) returns (r: Result<()>)
      modifies db
      ensures (db.View(), r) == ClearBreakerTx(old(db.View()), expectedVersion, policy, env)
    {
      if env.runtimeKey.None? {
        return Err("runtime key state is unavailable");
      }
      if db.safety.None? || db.safety.value.version != expectedVersion {
        return Err("provider safety state version changed");
      }
      var state := db.safety.value;
      if !state.open {
        return Err("provider breaker is not open");
      }
      if policy == state.policy {
        return Err("provider clear requires a new cost policy");
      }
      if policy != env.codePolicy {
        return Err("provider policy is not in the registry");
      }
      var next := state.version + 1;
      db.events := db.events + [SafetyEvent(state.lastSequence + 1, BreakerCleared, state.version, next, true, false)];
      db.safety := Some(state.(version := next, policy := policy, open := false, lastSequence := state.lastSequence + 1));
      return Ok(());
    }
  }

  // ---- What a sweep does

  /** The selected recoverable calls that do not raise are settled, every other call is untouched. */
  ghost predicate Swept(d: Durable, d': Durable, keys: seq<CallKey>, now: int, force: bool, failing: set<CallKey>) {
    && d'.calls.Keys == d.calls.Keys
    && (forall k :: k in d.calls ==> SweptRow(d, d', keys, now, force, failing, k))
    && (d'.workflows, d'.safety, d'.events, d'.nextId) == (d.workflows, d.safety, d.events, d.nextId)
  }

  ghost predicate SweptRow(d: Durable, d': Durable, keys: seq<CallKey>, now: int, force: bool, failing: set<CallKey>, k: CallKey)
    requires k in d.calls && k in d'.calls
  {
    d'.calls[k] == if k in keys && k !in failing && Recoverable(d.calls[k], now, force)
                   then AdminRecoverTx(d, k, now, force).0.calls[k]
                   else d.calls[k]
  }

  lemma SweepOneMore(d: Durable, d1: Durable, keys: seq<CallKey>, key: CallKey, now: int, force: bool, failing: set<CallKey>)
    requires Swept(d, d1, keys, now, force, failing)
    ensures Swept(d, if key in failing then d1 else AdminRecoverTx(d1, key, now, force).0, keys + [key], now, force, failing)
  {
    hide ZeroedChildren;
    var d2 := if key in failing then d1 else AdminRecoverTx(d1, key, now, force).0;
    forall k | k in d.calls ensures k in d2.calls && SweptRow(d, d2, keys + [key], now, force, failing, k) {
      assert SweptRow(d, d1, keys, now, force, failing, k);
    }
  }

  lemma {:induction false} SweepSettlesExactly(d: Durable, keys: seq<CallKey>, now: int, force: bool, failing: set<CallKey>)
    ensures Swept(d, Sweep(d, keys, now, force, failing).0, keys, now, force, failing)
    decreases |keys|
  {
    if keys != [] {
      var shorter, key := keys[..|keys| - 1], keys[|keys| - 1];
      assert keys == shorter + [key];
      SweepSettlesExactly(d, shorter, now, force, failing);
      hide AdminRecoverTx, Swept;
      SweepOneMore(d, Sweep(d, shorter, now, force, failing).0, shorter, key, now, force, failing);
    }
  }

  /** After a sweep over all expired calls of which none raised, no expired call is left open; after
      a cancellation of all open calls of a workflow, none of them is. */
  lemma NothingIsLeftOpen(d: Durable, keys: seq<CallKey>, now: int, force: bool, among: set<CallKey>)
    requires forall k :: k in among && k in d.calls && Recoverable(d.calls[k], now, force) ==> k in keys
    ensures var d' := Sweep(d, keys, now, force, {}).0;
            forall k :: k in among && k in d'.calls ==> !Recoverable(d'.calls[k], now, force)
  {
    SweepSettlesExactly(d, keys, now, force, {});
    var d' := Sweep(d, keys, now, force, {}).0;
    forall k | k in among && k in d'.calls ensures !Recoverable(d'.calls[k], now, force) {
      assert SweptRow(d, d', keys, now, force, {}, k);
    }
  }

  /** A sweep repeated at the same time finds nothing to do. */
  lemma {:induction false} SweepIsIdempotent(d: Durable, keys: seq<CallKey>, again: seq<CallKey>, now: int, force: bool)
    requires forall k :: k in again ==> k in keys
    ensures var d' := Sweep(d, keys, now, force, {}).0;
            Sweep(d', again, now, force, {}) == (d', 0, 0)
    decreases |again|
  {
    hide ZeroedChildren;
    if again != [] {
      SweepIsIdempotent(d, keys, again[..|again| - 1], now, force);
      NothingIsLeftOpen(d, keys, now, force, set k | k in keys);
    }
  }
}
