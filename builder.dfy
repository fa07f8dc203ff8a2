/** Build coalescing in the development server (webpack.helper.js): the
    one-shot `Completer` and the `Builder` that shares one in-flight
    compilation among all requests that arrive while it runs.

    The compiler is external. Starting a run is `Builder.Build`; the
    compiler's completion callback is `Builder.RunFinished`, called with the
    completer that run was started for and with how the run ended. */
module Build {
  import opened Wrappers

  /** The state of the promise a completer hands out. Its handlers
      `resolve_` and `reject_` are both still set exactly while it is
      `Pending`. */
  datatype PromiseState = Pending | Fulfilled(value: string) | Rejected(reason: string)

  /** Settling a promise: only a pending one takes the outcome. */
  function Settle(s: PromiseState, outcome: PromiseState): (r: PromiseState)
    requires !outcome.Pending?
    ensures !r.Pending?
    ensures r == outcome || r == s
  {
    if s.Pending? then outcome else s
  }

  /** A completer settles at most once: whatever comes after the first
      settlement is ignored. */
  lemma SettleAtMostOnce(s: PromiseState, first: PromiseState, later: PromiseState)
    requires !first.Pending? && !later.Pending?
    ensures Settle(Settle(s, first), later) == Settle(s, first)
    ensures s.Pending? ==> Settle(Settle(s, first), later) == first
  {
  }

  class Completer {
    var state: PromiseState

    constructor()
      ensures state == Pending
    {
      state := Pending;
    }

    method Resolve(v: string)
      modifies this
      ensures state == Settle(old(state), Fulfilled(v))
    {
      if state.Pending? {
        state := Fulfilled(v);
      }
    }

    method Reject(e: string)
      modifies this
      ensures state == Settle(old(state), Rejected(e))
    {
      if state.Pending? {
        state := Rejected(e);
      }
    }
  }

  /** How a compiler run ends, as its callback sees it. */
  datatype RunOutcome =
    | RunFailed(err: string)         // the callback's `err` (rendered as text)
    | CompileErrors(stats: string)   // `stats.hasErrors()`; the text of `stats.toString()`
    | ReadFailed(err: string)        // reading the output from the in-memory file system threw
    | Built(content: string)         // the output file's text

  /** What a run's outcome settles the completer with: the output text,
      or the failure, diagnostics verbatim. */
  function Settlement(o: RunOutcome): (r: PromiseState)
    ensures !r.Pending?
    ensures r.Fulfilled? <==> o.Built?
    ensures o.RunFailed? ==> r == Rejected(o.err)
    ensures o.CompileErrors? ==> r == Rejected(o.stats)
    ensures o.ReadFailed? ==> r == Rejected(o.err)
    ensures o.Built? ==> r.value == o.content
  {
    match o
    case RunFailed(e) => Rejected(e)
    case CompileErrors(s) => Rejected(s)
    case ReadFailed(e) => Rejected(e)
    case Built(s) => Fulfilled(s)
  }

  class Builder {
    /** The output file this builder's compiler writes. */
    const filename: string
    /** The completer of the run in flight, or null when idle. */
    var c: Completer?
    /** How many times `compiler.run` was called. */
    ghost var runs: nat

    /** The completer of the run in flight is unsettled. */
    ghost predicate Valid()
      reads this, c
    {
      c != null ==> c.state.Pending?
    }

    constructor(filename: string)
      ensures this.filename == filename && c == null && runs == 0 && Valid()
    {
      this.filename := filename;
      c := null;
      runs := 0;
    }

    /** `build()`. While a run is in flight, returns its promise and starts
        nothing. Otherwise starts a run with a new completer; when
        `compiler.run` throws (`runThrows`), that completer is rejected at
        once and the builder is idle again. */
    method Build(runThrows: Option<string>) returns (p: Completer)
      requires Valid()
      modifies this
      ensures Valid()
      ensures old(c) != null ==> p == old(c) && c == old(c) && runs == old(runs) && p.state.Pending?
      ensures old(c) == null ==> fresh(p) && runs == old(runs) + 1
      ensures old(c) == null && runThrows.None? ==> c == p && p.state.Pending?
      ensures old(c) == null && runThrows.Some? ==> c == null && p.state == Rejected(runThrows.value)
    {
      var k := c;
      if k == null {
        var started := new Completer();
        k := started;
        c := started;
        runs := runs + 1;
        if runThrows.Some? {
          if c == started {
            c := null;
          }
          started.Reject(runThrows.value);
        }
      }
      p := k;
    }

    /** The compiler's callback for the run started with `k`: clears the
        in-flight completer if it is still `k`, then settles `k`. */
    method RunFinished(k: Completer, o: RunOutcome)
      requires Valid()
      modifies this, k
      ensures Valid()
      ensures c == (if old(c) == k then null else old(c))
      ensures k.state == Settle(old(k.state), Settlement(o))
      ensures runs == old(runs)
    {
      if c == k {
        c := null;
      }
      match o {
        case RunFailed(e) => k.Reject(e);
        case CompileErrors(s) => k.Reject(s);
        case ReadFailed(e) => k.Reject(e);
        case Built(s) => k.Resolve(s);
      }
    }
  }

  /** `n` requests arrive while no run is in flight and wait for it; the
      run then ends with `o`. One run is started, and every request sees
      the same settlement. */
  method CoalescedRequests(filename: string, n: nat, o: RunOutcome) returns (seen: seq<PromiseState>, ghost runs: nat)
    requires n >= 1
    ensures runs == 1
    ensures |seen| == n && forall i :: 0 <= i < n ==> seen[i] == Settlement(o)
  {
    var b := new Builder(filename);
    var first := b.Build(None);
    var promises := [first];
    while |promises| < n
      invariant b.Valid() && b.c == first && b.runs == 1
      invariant 1 <= |promises| <= n
      invariant forall i :: 0 <= i < |promises| ==> promises[i] == first
    {
      var p := b.Build(None);
      promises := promises + [p];
    }
    b.RunFinished(first, o);
    seen := [];
    while |seen| < n
      invariant |seen| <= n
      invariant forall i :: 0 <= i < |seen| ==> seen[i] == promises[i].state
    {
      seen := seen + [promises[|seen|].state];
    }
    runs := b.runs;
  }

  /** Settled results are not kept: after a run ends, success or failure,
      the next request starts a new run with a new promise. */
  method NextRequestRebuilds(filename: string, o: RunOutcome) returns (first: PromiseState, second: PromiseState, shared: bool, ghost runs: nat)
    ensures first == Settlement(o)
    ensures second == Pending && !shared
    ensures runs == 2
  {
    var b := new Builder(filename);
    var p := b.Build(None);
    b.RunFinished(p, o);
    var q := b.Build(None);
    first, second, shared := p.state, q.state, p == q;
    runs := b.runs;
  }
}
