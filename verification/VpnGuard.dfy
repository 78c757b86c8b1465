/** `VPNGuard`: readiness state and the callbacks of the watch loop. Interface
    detection, name resolution and probe answers are inputs. */
module VpnGuard {
  import opened Options

  datatype ServiceState = BOOTING | VPN_UNAVAILABLE | READY | DEGRADED

  /** A probe URL and the host name `urlparse` finds in it. */
  datatype Target = Target(url: string, hostname: Option<string>)

  datatype Probe = Probe(target: string, ok: bool)

  /** What one check meets: one entry per target in each list. */
  datatype Network = Network(iface: bool, resolves: seq<bool>, answers: seq<bool>)

  datatype Reason = NoReason | NoInterface | DnsFailed(hosts: seq<string>) | ProbesFailed(targets: seq<string>)

  datatype Status = Status(ok: bool, interfaceFound: bool, probes: seq<Probe>, reason: Reason)

  // ---- the machine behind the class ----

  /** One check; a direct one is a `preflight` call outside the watch loop. */
  datatype Check = Check(ok: bool, watched: bool)

  function NextState(s: ServiceState, c: Check): ServiceState {
    if c.ok then READY else if c.watched && s == READY then DEGRADED else VPN_UNAVAILABLE
  }

  /** The callback a check makes, if any. */
  function Calls(s: ServiceState, c: Check): seq<ServiceState> {
    if !c.watched then []
    else if c.ok && s != READY && s != BOOTING then [READY]
    else if !c.ok && s == READY then [DEGRADED]
    else []
  }

  function StateAfter(s: ServiceState, cs: seq<Check>): ServiceState {
    if cs == [] then s else NextState(StateAfter(s, cs[..|cs| - 1]), cs[|cs| - 1])
  }

  function CallsAfter(s: ServiceState, cs: seq<Check>): seq<ServiceState> {
    if cs == [] then []
    else
      var before := cs[..|cs| - 1];
      CallsAfter(s, before) + Calls(StateAfter(s, before), cs[|cs| - 1])
  }

  lemma Start(s: ServiceState)
    ensures StateAfter(s, []) == s && CallsAfter(s, []) == []
  {
  }

  lemma Snoc(s: ServiceState, cs: seq<Check>, c: Check)
    ensures StateAfter(s, cs + [c]) == NextState(StateAfter(s, cs), c)
    ensures CallsAfter(s, cs + [c]) == CallsAfter(s, cs) + Calls(StateAfter(s, cs), c)
  {
    assert (cs + [c])[..|cs|] == cs;
  }

  lemma {:induction false} Resume(s: ServiceState, a: seq<Check>, b: seq<Check>)
    ensures StateAfter(s, a + b) == StateAfter(StateAfter(s, a), b)
    ensures CallsAfter(s, a + b) == CallsAfter(s, a) + CallsAfter(StateAfter(s, a), b)
    decreases |b|
  {
    hide StateAfter, CallsAfter, Calls, NextState;
    if b == [] {
      assert a + b == a;
      Start(StateAfter(s, a));
    } else {
      var (b1, c) := (b[..|b| - 1], b[|b| - 1]);
      Resume(s, a, b1);
      Snoc(s, a + b1, c);
      Snoc(StateAfter(s, a), b1, c);
      assert a + b == a + b1 + [c] && b == b1 + [c];
    }
  }

  // ---- what the state and the callbacks mean ----

  /** READY iff the last check passed; DEGRADED iff a watched check failed right after one that
      passed; BOOTING only before the first check. */
  lemma StateMeans(h: seq<Check>)
    ensures var s := StateAfter(BOOTING, h);
      && (s == BOOTING <==> h == [])
      && (s == READY <==> h != [] && h[|h| - 1].ok)
      && (s == DEGRADED <==> |h| >= 2 && h[|h| - 1].watched && !h[|h| - 1].ok && h[|h| - 2].ok)
  {
    if |h| >= 2 { assert h[..|h| - 1][|h| - 2] == h[|h| - 2]; }
  }

  /** The checks of the loop whose result differs from the check before. */
  function Edges(h: seq<Check>): seq<ServiceState> {
    if |h| < 2 then []
    else
      var (prev, last) := (h[|h| - 2], h[|h| - 1]);
      Edges(h[..|h| - 1]) + (if last.watched && prev.ok != last.ok then [if last.ok then READY else DEGRADED] else [])
  }

  /** The callbacks are exactly the edges. */
  lemma {:induction false} CallsAreEdges(h: seq<Check>)
    ensures CallsAfter(BOOTING, h) == Edges(h)
  {
    if h != [] {
      var before := h[..|h| - 1];
      CallsAreEdges(before);
      StateMeans(before);
      if |h| == 1 { assert CallsAfter(BOOTING, []) == []; } else { assert before[|before| - 1] == h[|h| - 2]; }
    }
  }

  /** What one run of the loop adds to the log: the edges of its own checks, the first one
      compared with the check before the run. */
  lemma WatchCallsAreEdges(before: seq<Check>, done: seq<Check>)
    ensures Edges(before + done) == Edges(before) + CallsAfter(StateAfter(BOOTING, before), done)
  {
    CallsAreEdges(before + done);
    CallsAreEdges(before);
    Resume(BOOTING, before, done);
  }

  ghost predicate Alternates(calls: seq<ServiceState>) {
    && (forall i :: 0 <= i < |calls| ==> calls[i] == READY || calls[i] == DEGRADED)
    && (forall i :: 1 <= i < |calls| ==> calls[i] != calls[i - 1])
  }

  /** In one run of the loop, from any state, the callbacks strictly alternate. */
  lemma {:induction false} WatchAlternates(s: ServiceState, done: seq<Check>)
    requires forall i :: 0 <= i < |done| ==> done[i].watched
    ensures var calls := CallsAfter(s, done);
      Alternates(calls) && (calls != [] ==> (calls[|calls| - 1] == READY <==> StateAfter(s, done) == READY))
    ensures done != [] ==> StateAfter(s, done) != BOOTING
  {
    hide StateAfter, CallsAfter;
    if done == [] {
      Start(s);
    } else {
      var (before, c) := (done[..|done| - 1], done[|done| - 1]);
      WatchAlternates(s, before);
      Snoc(s, before, c);
      assert done == before + [c];
      if before == [] { Start(s); }
    }
  }

  lemma {:induction false} DirectSilent(s: ServiceState, h: seq<Check>)
    requires forall i :: 0 <= i < |h| ==> !h[i].watched
    ensures CallsAfter(s, h) == []
  {
    if h != [] { DirectSilent(s, h[..|h| - 1]); }
  }

  // ---- when do the callbacks alternate over the life of a guard? ----

  /** The checks of a pattern of use (true: made by the loop) with these results. */
  function History(ps: seq<bool>, rs: seq<bool>): seq<Check>
    requires |ps| == |rs|
  {
    seq(|ps|, i requires 0 <= i < |ps| => Check(rs[i], ps[i]))
  }

  /** Whatever the checks find, the callbacks alternate. */
  ghost predicate AlwaysAlternates(ps: seq<bool>) {
    forall rs: seq<bool> :: |rs| == |ps| ==> Alternates(CallsAfter(BOOTING, History(ps, rs)))
  }

  /** After the first check, no direct check comes between two checks of the loop. */
  ghost predicate Unbroken(ps: seq<bool>) {
    forall i, j, k :: 1 <= i < j < k < |ps| && ps[i] && ps[k] ==> ps[j]
  }

  /** The callbacks of a guard alternate for all results if and only if the pattern is unbroken. */
  lemma AlternationExact(ps: seq<bool>)
    ensures AlwaysAlternates(ps) <==> Unbroken(ps)
  {
    if Unbroken(ps) {
      forall rs: seq<bool> | |rs| == |ps| ensures Alternates(CallsAfter(BOOTING, History(ps, rs))) {
        UnbrokenAlternates(ps, rs);
      }
    } else {
      var rs := BreakingResults(ps);
      var calls := CallsAfter(BOOTING, History(ps, rs));
      assert calls[1] == calls[0] && !Alternates(calls);
    }
  }

  /** Where the loop's checks begin, not counting the very first check. */
  ghost function LoopStart(ps: seq<bool>, from: nat := 1): (k: nat)
    requires 1 <= from <= |ps| && forall i :: 1 <= i < from ==> !ps[i]
    ensures from <= k <= |ps| && (forall i :: 1 <= i < k ==> !ps[i]) && (k < |ps| ==> ps[k])
    decreases |ps| - from
  {
    if from == |ps| || ps[from] then from else LoopStart(ps, from + 1)
  }

  ghost function LoopEnd(ps: seq<bool>, from: nat): (k: nat)
    requires from <= |ps|
    ensures from <= k <= |ps| && (forall i :: from <= i < k ==> ps[i]) && (k < |ps| ==> !ps[k])
    decreases |ps| - from
  {
    if from == |ps| || !ps[from] then from else LoopEnd(ps, from + 1)
  }

  lemma UnbrokenAlternates(ps: seq<bool>, rs: seq<bool>)
    requires |rs| == |ps| && Unbroken(ps)
    ensures Alternates(CallsAfter(BOOTING, History(ps, rs)))
  {
    var h := History(ps, rs);
    if ps == [] {
      Start(BOOTING);
    } else {
      var i := LoopStart(ps);
      var j := LoopEnd(ps, i);
      assert forall k :: j <= k < |ps| ==> !ps[k];
      BlockAlternates(h, i, j);
    }
  }

  /** One check, direct checks, checks of the loop, direct checks. */
  lemma BlockAlternates(h: seq<Check>, i: nat, j: nat)
    requires 1 <= i <= j <= |h| && (forall k :: 1 <= k < i ==> !h[k].watched)
    requires (forall k :: i <= k < j ==> h[k].watched) && (forall k :: j <= k < |h| ==> !h[k].watched)
    ensures Alternates(CallsAfter(BOOTING, h))
  {
    hide StateAfter, CallsAfter;
    assert h == [h[0]] + (h[1..i] + (h[i..j] + h[j..]));
    OnlyBlock(h[0], h[1..i], h[i..j], h[j..]);
    WatchAlternates(StateAfter(StateAfter(BOOTING, [h[0]]), h[1..i]), h[i..j]);
  }

  lemma OnlyBlock(first: Check, a: seq<Check>, b: seq<Check>, c: seq<Check>)
    requires (forall k :: 0 <= k < |a| ==> !a[k].watched) && (forall k :: 0 <= k < |c| ==> !c[k].watched)
    ensures CallsAfter(BOOTING, [first] + (a + (b + c))) == CallsAfter(StateAfter(StateAfter(BOOTING, [first]), a), b)
  {
    hide StateAfter, CallsAfter;
    FirstSilent(first);
    var s0 := StateAfter(BOOTING, [first]);
    DirectSilent(s0, a);
    var s1 := StateAfter(s0, a);
    DirectSilent(StateAfter(s1, b), c);
    Resume(BOOTING, [first], a + (b + c));
    Resume(s0, a, b + c);
    Resume(s1, b, c);
  }

  lemma FirstSilent(c: Check)
    ensures CallsAfter(BOOTING, [c]) == []
  {
    Snoc(BOOTING, [], c);
    Start(BOOTING);
    assert [] + [c] == [c];
  }

  ghost function LastWatched(ps: seq<bool>, i: nat, j: nat): (k: nat)
    requires i < j <= |ps| && ps[i]
    ensures i <= k < j && ps[k] && forall x :: k < x < j ==> !ps[x]
    decreases j
  {
    if ps[j - 1] then j - 1 else LastWatched(ps, i, j - 1)
  }

  ghost function NextWatched(ps: seq<bool>, j: nat, k: nat): (x: nat)
    requires j <= k < |ps| && ps[k]
    ensures j <= x <= k && ps[x] && forall y :: j <= y < x ==> !ps[y]
    decreases k - j
  {
    if ps[j] then j else NextWatched(ps, j + 1, k)
  }

  /** Results that make the loop report DEGRADED twice in a row. */
  lemma BreakingResults(ps: seq<bool>) returns (rs: seq<bool>)
    requires !Unbroken(ps)
    ensures |rs| == |ps| && CallsAfter(BOOTING, History(ps, rs)) == [DEGRADED, DEGRADED]
  {
    var i, j, k :| 1 <= i < j < k < |ps| && ps[i] && ps[k] && !ps[j];
    var x := LastWatched(ps, i, j);
    var y := NextWatched(ps, j, k);
    rs := seq(|ps|, z requires 0 <= z < |ps| => z < x || x < z < y);
    var h := History(ps, rs);
    assert h[x] == Check(false, true) && h[y] == Check(false, true);
    hide CallsAfter, Unbroken;
    CutTwice(h, x, y);
    TwoFailures(h[..x], h[x + 1..y], h[y + 1..]);
  }

  lemma CutTwice(h: seq<Check>, x: nat, y: nat)
    requires x < y < |h|
    ensures h == h[..x] + ([h[x]] + (h[x + 1..y] + ([h[y]] + h[y + 1..])))
  {
    assert h[x..] == [h[x]] + h[x + 1..] && h[y..] == [h[y]] + h[y + 1..];
    assert h[x + 1..] == h[x + 1..y] + h[y..];
  }

  lemma TwoFailures(a: seq<Check>, b: seq<Check>, c: seq<Check>)
    requires a != [] && b != [] && (forall i :: 0 <= i < |a| ==> a[i].ok)
      && (forall i :: 0 <= i < |b| ==> b[i] == Check(true, false))
    requires forall i :: 0 <= i < |c| ==> !c[i].ok
    ensures var f := Check(false, true); CallsAfter(BOOTING, a + ([f] + (b + ([f] + c)))) == [DEGRADED, DEGRADED]
  {
    hide StateAfter, CallsAfter;
    var f := Check(false, true);
    PassSilent(BOOTING, a);
    Resume(BOOTING, a, [f] + (b + ([f] + c)));
    FailOnce(b + ([f] + c));
    PassSilent(DEGRADED, b);
    DirectSilent(DEGRADED, b);
    Resume(DEGRADED, b, [f] + c);
    FailOnce(c);
    FailSilent(DEGRADED, c);
  }

  /** A failing check of the loop in the state READY. */
  lemma FailOnce(rest: seq<Check>)
    ensures CallsAfter(READY, [Check(false, true)] + rest) == [DEGRADED] + CallsAfter(DEGRADED, rest)
  {
    hide StateAfter, CallsAfter;
    var f := Check(false, true);
    Snoc(READY, [], f);
    Start(READY);
    assert [] + [f] == [f];
    Resume(READY, [f], rest);
  }

  lemma {:induction false} PassSilent(s: ServiceState, a: seq<Check>)
    requires a != [] && forall i :: 0 <= i < |a| ==> a[i].ok
    ensures StateAfter(s, a) == READY
    ensures s == BOOTING || s == READY ==> CallsAfter(s, a) == []
  {
    hide StateAfter, CallsAfter;
    var (before, c) := (a[..|a| - 1], a[|a| - 1]);
    Snoc(s, before, c);
    assert a == before + [c];
    if before == [] { Start(s); } else { PassSilent(s, before); }
  }

  lemma {:induction false} FailSilent(s: ServiceState, c: seq<Check>)
    requires s != READY && forall i :: 0 <= i < |c| ==> !c[i].ok
    ensures CallsAfter(s, c) == [] && StateAfter(s, c) != READY
  {
    hide StateAfter, CallsAfter;
    if c == [] {
      Start(s);
    } else {
      FailSilent(s, c[..|c| - 1]);
      Snoc(s, c[..|c| - 1], c[|c| - 1]);
      assert c == c[..|c| - 1] + [c[|c| - 1]];
    }
  }

  // ---- one check ----

  /** Host names that do not resolve, in order; targets without a host name are not looked up. */
  function Unresolved(ts: seq<Target>, resolves: seq<bool>): seq<string>
    requires |ts| == |resolves|
  {
    if ts == [] then []
    else
      var n := |ts| - 1;
      Unresolved(ts[..n], resolves[..n])
      + (if ts[n].hostname.Some? && ts[n].hostname.value != "" && !resolves[n] then [ts[n].hostname.value] else [])
  }

  function Probes(ts: seq<Target>, answers: seq<bool>): seq<Probe>
    requires |ts| == |answers|
  {
    seq(|ts|, i requires 0 <= i < |ts| => Probe(ts[i].url, answers[i]))
  }

  function Failed(ps: seq<Probe>): seq<string> {
    if ps == [] then []
    else Failed(ps[..|ps| - 1]) + (if ps[|ps| - 1].ok then [] else [ps[|ps| - 1].target])
  }

  ghost predicate Resolves(t: Target, resolved: bool) { t.hostname.Some? && t.hostname.value != "" ==> resolved }

  lemma {:induction false} UnresolvedEmpty(ts: seq<Target>, resolves: seq<bool>)
    requires |ts| == |resolves|
    ensures Unresolved(ts, resolves) == [] <==> forall i :: 0 <= i < |ts| ==> Resolves(ts[i], resolves[i])
  {
    if ts != [] {
      var n := |ts| - 1;
      UnresolvedEmpty(ts[..n], resolves[..n]);
      assert forall i :: 0 <= i < n ==> ts[..n][i] == ts[i] && resolves[..n][i] == resolves[i];
    }
  }

  lemma {:induction false} FailedEmpty(ps: seq<Probe>)
    ensures Failed(ps) == [] <==> forall i :: 0 <= i < |ps| ==> ps[i].ok
  {
    if ps != [] {
      FailedEmpty(ps[..|ps| - 1]);
      assert forall i :: 0 <= i < |ps| - 1 ==> ps[..|ps| - 1][i] == ps[i];
    }
  }

  /** One round of the loop: what the check meets, whether `stop` is called during the round, and
      whether a callback made in it raises. */
  datatype Round = Round(net: Network, stopped: bool, raises: bool)

  class VPNGuard {
    const targets: seq<Target>
    const required: bool
    var state: ServiceState
    var running: bool
    ghost var history: seq<Check>
    ghost var calls: seq<ServiceState>

    ghost predicate Valid()
      reads this
    {
      state == StateAfter(BOOTING, history)
    }

    predicate Fits(net: Network) { |net.resolves| == |net.answers| == |targets| }

    /** The verdict of a check. */
    ghost predicate Passes(net: Network)
      requires Fits(net)
    {
      || !required
      || (net.iface && (forall i :: 0 <= i < |targets| ==> Resolves(targets[i], net.resolves[i]))
          && forall i :: 0 <= i < |targets| ==> net.answers[i])
    }

    /** The checks made in the first rounds, with the verdicts those rounds call for. */
    ghost predicate Matches(rounds: seq<Round>, done: seq<Check>)
      requires forall i :: 0 <= i < |rounds| ==> Fits(rounds[i].net)
    {
      && |done| <= |rounds|
      && forall i :: 0 <= i < |done| ==> done[i].watched && (done[i].ok <==> Passes(rounds[i].net))
    }

    /** In the first m rounds no callback that was made raised. */
    ghost predicate Undisturbed(rounds: seq<Round>, s: ServiceState, done: seq<Check>, callback: bool, m: nat) {
      && m <= |done| <= |rounds|
      && forall i :: 0 <= i < m && callback && rounds[i].raises ==> Calls(StateAfter(s, done[..i]), done[i]) == []
    }

    lemma UndisturbedSnoc(rounds: seq<Round>, s: ServiceState, done: seq<Check>, c: Check, callback: bool, raised: bool)
      requires |done| < |rounds| && Undisturbed(rounds, s, done, callback, |done|)
      requires raised <==> callback && rounds[|done|].raises && Calls(StateAfter(s, done), c) != []
      ensures Undisturbed(rounds, s, done + [c], callback, if raised then |done| else |done| + 1)
    {
      hide StateAfter, Calls;
      assert forall i :: 0 <= i <= |done| ==> (done + [c])[..i] == done[..i];
      assert done[..|done|] == done;
    }

    lemma MatchesNone(rounds: seq<Round>, s: ServiceState, callback: bool)
      requires forall i :: 0 <= i < |rounds| ==> Fits(rounds[i].net)
      ensures Matches(rounds, []) && Undisturbed(rounds, s, [], callback, 0)
    {
    }

    lemma MatchesSnoc(rounds: seq<Round>, done: seq<Check>, c: Check)
      requires forall i :: 0 <= i < |rounds| ==> Fits(rounds[i].net)
      requires Matches(rounds, done) && |done| < |rounds| && c.watched && (c.ok <==> Passes(rounds[|done|].net))
      ensures Matches(rounds, done + [c])
    {
    }

    constructor (targets: seq<Target>, required: bool)
      ensures Valid() && this.targets == targets && this.required == required
      ensures history == [] && calls == [] && state == BOOTING && !running
    {
      this.targets, this.required := targets, required;
      state, running := BOOTING, false;
      history, calls := [], [];
    }

    predicate IsReady()
      reads this
    {
      state == READY
    }

    method LookUp(net: Network) returns (failures: seq<string>)
      requires Fits(net)
      ensures failures == Unresolved(targets, net.resolves)
    {
      failures := [];
      for i := 0 to |targets|
        invariant failures == Unresolved(targets[..i], net.resolves[..i])
      {
        assert targets[..i + 1][..i] == targets[..i] && net.resolves[..i + 1][..i] == net.resolves[..i];
        var host := targets[i].hostname;
        if host.Some? && host.value != "" && !net.resolves[i] { failures := failures + [host.value]; }
      }
      assert targets[..|targets|] == targets && net.resolves[..|targets|] == net.resolves;
    }

    method ProbeAll(net: Network) returns (probes: seq<Probe>)
      requires Fits(net)
      ensures probes == Probes(targets, net.answers)
    {
      probes := [];
      for i := 0 to |targets|
        invariant probes == Probes(targets, net.answers)[..i]
      {
        probes := probes + [Probe(targets[i].url, net.answers[i])];
      }
    }

    /** The three stages, without the bookkeeping of who asked. */
    method Examine(net: Network) returns (status: Status)
      requires Fits(net)
      modifies this`state
      ensures status.ok <==> Passes(net)
      ensures state == if status.ok then READY else VPN_UNAVAILABLE
      ensures status.interfaceFound == net.iface
      ensures match status.reason
        case NoReason => status.ok
        case NoInterface => !status.ok && !net.iface
        case DnsFailed(hosts) => !status.ok && net.iface && hosts == Unresolved(targets, net.resolves) && hosts != []
        case ProbesFailed(urls) =>
          !status.ok && net.iface && Unresolved(targets, net.resolves) == [] && urls == Failed(status.probes)
            && urls != []
      ensures status.probes == if status.reason.NoInterface? || status.reason.DnsFailed? then []
        else Probes(targets, net.answers)
    {
      if !net.iface && required {
        state := VPN_UNAVAILABLE;
        return Status(false, false, [], NoInterface);
      }
      var failures := LookUp(net);
      UnresolvedEmpty(targets, net.resolves);
      if failures != [] && required {
        state := VPN_UNAVAILABLE;
        return Status(false, net.iface, [], DnsFailed(failures));
      }
      var probes := ProbeAll(net);
      FailedEmpty(probes);
      assert forall i :: 0 <= i < |targets| ==> probes[i].ok == net.answers[i];
      var failed := Failed(probes);
      if failed != [] && required {
        state := VPN_UNAVAILABLE;
        return Status(false, net.iface, probes, ProbesFailed(failed));
      }
      state := READY;
      status := Status(true, net.iface, probes, NoReason);
    }

    /** `preflight` called directly. */
    method Preflight(net: Network) returns (status: Status)
      requires Valid() && Fits(net)
      modifies this`state, this`history
      ensures Valid() && (status.ok <==> Passes(net))
      ensures history == old(history) + [Check(status.ok, false)]
    {
      status := Examine(net);
      Snoc(BOOTING, history, Check(status.ok, false));
      history := history + [Check(status.ok, false)];
    }

    /** One round of the watch loop; true when the callback raised. */
    method WatchRound(round: Round, callback: bool) returns (raised: bool, ghost c: Check)
      requires Valid() && Fits(round.net)
      modifies this
      ensures Valid() && state == NextState(old(state), c)
      ensures c.watched && (c.ok <==> Passes(round.net)) && history == old(history) + [c]
      ensures calls == old(calls) + (if callback then Calls(old(state), c) else [])
      ensures raised <==> callback && round.raises && Calls(old(state), c) != []
      ensures running == (old(running) && !round.stopped)
    {
      var previous := state;
      var status := Examine(round.net);
      c := Check(status.ok, true);
      raised := false;
      ghost var before := calls;
      if status.ok && previous != READY && previous != BOOTING {
        if callback { calls := calls + [READY]; raised := round.raises; }
      } else if !status.ok && previous == READY {
        state := DEGRADED;
        if callback { calls := calls + [DEGRADED]; raised := round.raises; }
      }
      if round.stopped { Stop(); }
      Snoc(BOOTING, history, c);
      history := history + [c];
      assert calls == before + (if callback then Calls(previous, c) else []);
    }

    method Stop()
      modifies this`running
      ensures !running
    {
      running := false;
    }

    /** `watch`: n rounds are made. The callbacks are those of the machine, no round follows one in
        which `stop` was called or a callback raised, and the loop ends early only for those reasons. */
    method Watch(rounds: seq<Round>, callback: bool) returns (n: nat, raised: bool)
      requires Valid() && forall i :: 0 <= i < |rounds| ==> Fits(rounds[i].net)
      modifies this
      ensures Valid() && n <= |rounds| && |history| == |old(history)| + n && old(history) <= history
      ensures Matches(rounds, history[|old(history)|..])
      ensures calls == old(calls) + (if callback then CallsAfter(old(state), history[|old(history)|..]) else [])
      ensures forall i :: 0 <= i < n - 1 ==> !rounds[i].stopped
      ensures n < |rounds| ==> raised || (n > 0 && rounds[n - 1].stopped)
      ensures raised ==> n > 0 && rounds[n - 1].raises && callback
      ensures Undisturbed(rounds, old(state), history[|old(history)|..], callback, if raised then n - 1 else n)
    {
      hide StateAfter, CallsAfter, Calls, NextState, Passes, Matches, Undisturbed;
      ghost var (h0, s0, calls0) := (history, state, calls);
      running, n, raised := true, 0, false;
      ghost var done: seq<Check> := [];
      Start(s0);
      MatchesNone(rounds, s0, callback);
      while running && n < |rounds|
        invariant Valid() && n <= |rounds| && |done| == n && history == h0 + done && !raised
        invariant state == StateAfter(s0, done)
        invariant Matches(rounds, done)
        invariant calls == calls0 + (if callback then CallsAfter(s0, done) else [])
        invariant Undisturbed(rounds, s0, done, callback, n)
        invariant forall i :: 0 <= i < n - 1 ==> !rounds[i].stopped
        invariant running == (n == 0 || !rounds[n - 1].stopped)
        decreases |rounds| - n
      {
        ghost var c;
        raised, c := WatchRound(rounds[n], callback);
        Snoc(s0, done, c);
        MatchesSnoc(rounds, done, c);
        UndisturbedSnoc(rounds, s0, done, c, callback, raised);
        done := done + [c];
        n := n + 1;
        if raised { break; }
      }
      assert history[|h0|..] == done;
    }
  }
}
