/**
 The issuer's key set (internal/adminauth/jwks.go): tokens that a cached key verifies are local; other callers
 share one fetch, and a fetch that verified nothing closes the network for a window. The system is a set of
 callers interleaved at the mutex; its clock never runs backwards. Signature checking is an abstract function.
 */
module Jwks {
  import opened Basics

  datatype Jwk = Jwk(keyId: string, material: nat)
  datatype Token = Token(kid: string, text: string)
  type Checker = (Token, Jwk) -> Option<string>

  // ---- Verifying with known keys ----------------------------------------------------------

  /** A key that may verify the token, and does. */
  predicate Accepts(v: Checker, k: Jwk, tok: Token) {
    (tok.kid == "" || k.keyId == tok.kid) && v(tok, k).Some?
  }

  /** What the first accepting key reads from the token. */
  function Found(v: Checker, keys: seq<Jwk>, tok: Token): (payload: Option<string>)
    ensures payload.Some? <==> exists i | 0 <= i < |keys| :: Accepts(v, keys[i], tok)
  {
    if keys == [] then None
    else if Accepts(v, keys[0], tok) then v(tok, keys[0])
    else
      var rest := Found(v, keys[1..], tok);
      assert rest.Some? ==> exists i | 0 <= i < |keys[1..]| :: Accepts(v, keys[1..][i], tok);
      assert forall i | 1 <= i < |keys| :: keys[i] == keys[1..][i - 1];
      rest
  }

  /** Key i is the first that has the token's key id, if it names one, and a signature that checks out. */
  ghost predicate FirstToVerify(v: Checker, keys: seq<Jwk>, tok: Token, i: nat) {
    && i < |keys| && (tok.kid == "" || keys[i].keyId == tok.kid) && v(tok, keys[i]).Some?
    && forall j | 0 <= j < i :: (tok.kid != "" && keys[j].keyId != tok.kid) || v(tok, keys[j]).None?
  }

  lemma {:induction false} FoundIsTheFirst(v: Checker, keys: seq<Jwk>, tok: Token) returns (i: nat)
    ensures Found(v, keys, tok).Some? ==> FirstToVerify(v, keys, tok, i) && Found(v, keys, tok) == v(tok, keys[i])
    ensures Found(v, keys, tok).None? ==> forall j | 0 <= j < |keys| :: (tok.kid != "" && keys[j].keyId != tok.kid) || v(tok, keys[j]).None?
  {
    i := 0;
    if keys != [] && !Accepts(v, keys[0], tok) {
      i := FoundIsTheFirst(v, keys[1..], tok);
      assert forall j | 1 <= j < |keys| :: keys[j] == keys[1..][j - 1];
      i := i + 1;
    }
  }

  /** Some key verifies the token. */
  predicate Verifies(v: Checker, keys: seq<Jwk>, tok: Token) {
    exists k | k in keys :: (tok.kid == "" || k.keyId == tok.kid) && v(tok, k).Some?
  }

  lemma FoundIfVerifies(v: Checker, keys: seq<Jwk>, tok: Token)
    ensures Found(v, keys, tok).Some? <==> Verifies(v, keys, tok)
  {
    var i := FoundIsTheFirst(v, keys, tok);
    hide Found;
  }

  method VerifyWith(v: Checker, keys: seq<Jwk>, tok: Token) returns (payload: Option<string>)
    ensures payload == Found(v, keys, tok)
    ensures payload.Some? <==> Verifies(v, keys, tok)
    ensures payload.Some? ==> exists i: nat :: FirstToVerify(v, keys, tok, i) && payload == v(tok, keys[i])
  {
    FoundIfVerifies(v, keys, tok);
    ghost var first := FoundIsTheFirst(v, keys, tok);
    var i := 0;
    assert keys[0..] == keys;
    while i < |keys|
      invariant 0 <= i <= |keys| && Found(v, keys, tok) == Found(v, keys[i..], tok)
    {
      assert keys[i..][1..] == keys[i + 1..] && keys[i..][0] == keys[i];
      if tok.kid == "" || keys[i].keyId == tok.kid {
        var p := v(tok, keys[i]);
        if p.Some? {
          return p;
        }
      }
      i := i + 1;
    }
    return None;
  }

  // ---- The shared state ------------------------------------------------------------------

  /** A flight is named by its place in allocation order; closed holds those whose channel was closed. */
  datatype Shared = Shared(keys: seq<Jwk>, lastMiss: Option<Time>, inflight: Option<nat>, next: nat, closed: set<nat>)

  datatype Entry = Join(flight: nat) | TooSoon | Start(flight: nat)

  function Entering(s: Shared, window: Time, t: Time): (Shared, Entry) {
    if s.inflight.Some? then (s, Join(s.inflight.value))
    else if s.lastMiss.Some? && t - s.lastMiss.value < window then (s, TooSoon)
    else (s.(inflight := Some(s.next), next := s.next + 1), Start(s.next))
  }

  /** The fetch of a flight ended with these keys, or failed, and verified its caller's token or not. */
  function Settling(s: Shared, flight: nat, served: Option<seq<Jwk>>, hit: bool, t: Time): Shared {
    Shared(if served.Some? then served.value else s.keys, if hit then s.lastMiss else Some(t), None, s.next, s.closed + {flight})
  }

  class KeySet {
    const window: Time
    const v: Checker
    var keys: seq<Jwk>
    var lastMiss: Option<Time>
    var inflight: Option<nat>
    var next: nat
    var closed: set<nat>

    ghost function State(): Shared
      reads this
    {
      Shared(keys, lastMiss, inflight, next, closed)
    }

    constructor (v: Checker, window: Time)
      ensures State() == Shared([], None, None, 0, {}) && this.v == v && this.window == window
    {
      this.v, this.window := v, window;
      keys, lastMiss, inflight, next, closed := [], None, None, 0, {};
    }

    /** A caller's first look: only the keys at hand, never the network. */
    method Lookup(tok: Token) returns (payload: Option<string>)
      ensures payload == Found(v, keys, tok)
    {
      payload := VerifyWith(v, keys, tok);
    }

    /** After a miss: join the running fetch, fail fast, or become the fetcher. */
    method Enter(t: Time) returns (e: Entry)
      modifies this
      ensures (State(), e) == Entering(old(State()), window, t)
      ensures e.TooSoon? <==> old(inflight).None? && old(lastMiss).Some? && t < old(lastMiss).value + window
      ensures e.Start? <==> old(inflight).None? && (old(lastMiss).None? || old(lastMiss).value + window <= t)
    {
      if inflight.Some? {
        return Join(inflight.value);
      }
      if lastMiss.Some? && t - lastMiss.value < window {
        return TooSoon;
      }
      e := Start(next);
      inflight := Some(next);
      next := next + 1;
    }

    /** The fetcher's end, whatever the download brought. */
    method Settle(flight: nat, tok: Token, served: Option<seq<Jwk>>, t: Time) returns (payload: Option<string>)
      modifies this
      ensures payload == (if served.Some? then Found(v, served.value, tok) else None)
      ensures State() == Settling(old(State()), flight, served, payload.Some?, t)
    {
      payload := None;
      if served.Some? {
        payload := VerifyWith(v, served.value, tok);
        keys := served.value;
      }
      if payload.None? {
        lastMiss := Some(t);
      }
      inflight := None;
      closed := closed + {flight};
    }
  }

  // ---- Callers, interleaved ------------------------------------------------------------------

  datatype Result = Verified(payload: string) | NoKey | RateLimited | FetchFailed | Cancelled

  datatype Phase =
    | Missed(tok: Token)
    | Waiting(tok: Token, flight: nat)
    | Fetching(tok: Token, flight: nat)
    | Returned(tok: Token, result: Result)

  datatype Event =
    | Arrive(id: nat, tok: Token)
    | Proceed(id: nat)
    | Settle(id: nat, served: Option<seq<Jwk>>)
    | Wake(id: nat)
    | Cancel(id: nat)

  datatype Note = Began(at: Time) | Ended(at: Time, hit: bool, served: Option<seq<Jwk>>)

  /** The callers, and a log of the fetches. */
  datatype System = System(shared: Shared, callers: map<nat, Phase>, clock: Time, log: seq<Note>)

  datatype Config = Config(v: Checker, window: Time, start: Time)

  function Answer(payload: Option<string>, otherwise: Result): Result {
    if payload.Some? then Verified(payload.value) else otherwise
  }

  predicate Enabled(s: System, e: Event) {
    match e
    case Arrive(id, _) => id !in s.callers
    case Proceed(id) => id in s.callers && s.callers[id].Missed?
    case Settle(id, _) => id in s.callers && s.callers[id].Fetching?
    case Wake(id) => id in s.callers && s.callers[id].Waiting? && s.callers[id].flight in s.shared.closed
    case Cancel(id) => id in s.callers && s.callers[id].Waiting?
  }

  /** What one enabled step does at time t. */
  function Next(g: Config, s: System, e: Event, t: Time): System
    requires Enabled(s, e)
  {
    match e
    case Arrive(id, tok) =>
      var payload := Found(g.v, s.shared.keys, tok);
      s.(callers := s.callers[id := if payload.Some? then Returned(tok, Verified(payload.value)) else Missed(tok)], clock := t)
    case Proceed(id) =>
      var tok := s.callers[id].tok;
      var (shared, entry) := Entering(s.shared, g.window, t);
      (match entry
       case Join(f) => s.(callers := s.callers[id := Waiting(tok, f)], clock := t)
       case TooSoon => s.(callers := s.callers[id := Returned(tok, RateLimited)], clock := t)
       case Start(f) => System(shared, s.callers[id := Fetching(tok, f)], t, s.log + [Began(t)]))
    case Settle(id, served) =>
      var tok := s.callers[id].tok;
      var payload := if served.Some? then Found(g.v, served.value, tok) else None;
      System(Settling(s.shared, s.callers[id].flight, served, payload.Some?, t),
             s.callers[id := Returned(tok, Answer(payload, if served.Some? then NoKey else FetchFailed))],
             t, s.log + [Ended(t, payload.Some?, served)])
    case Wake(id) =>
      var tok := s.callers[id].tok;
      s.(callers := s.callers[id := Returned(tok, Answer(Found(g.v, s.shared.keys, tok), NoKey))], clock := t)
    case Cancel(id) =>
      s.(callers := s.callers[id := Returned(s.callers[id].tok, Cancelled)], clock := t)
  }

  datatype Timed = Timed(at: Time, event: Event)

  function Fresh(g: Config): System {
    System(Shared([], None, None, 0, {}), map[], g.start, [])
  }

  /** A run: enabled steps at times that never decrease. */
  predicate Run(g: Config, steps: seq<Timed>)
    decreases |steps|, 0
  {
    steps == [] ||
    (var n := |steps| - 1;
     Run(g, steps[..n]) && After(g, steps[..n]).clock <= steps[n].at && Enabled(After(g, steps[..n]), steps[n].event))
  }

  function After(g: Config, steps: seq<Timed>): System
    requires Run(g, steps)
    decreases |steps|, 1
  {
    if steps == [] then Fresh(g) else Next(g, After(g, steps[..|steps| - 1]), steps[|steps| - 1].event, steps[|steps| - 1].at)
  }

  // ---- What every run keeps --------------------------------------------------------------------

  /** The latest fetch that verified nothing. */
  function LastMiss(log: seq<Note>): Option<Time> {
    if log == [] then None
    else
      var note := log[|log| - 1];
      if note.Ended? && !note.hit then Some(note.at) else LastMiss(log[..|log| - 1])
  }

  /** The latest key set that was served. */
  function LastServed(log: seq<Note>): seq<Jwk> {
    if log == [] then []
    else
      var note := log[|log| - 1];
      if note.Ended? && note.served.Some? then note.served.value else LastServed(log[..|log| - 1])
  }

  /** Fetches do not overlap: they begin and end in turn. */
  predicate InTurn(log: seq<Note>) {
    (log != [] ==> log[0].Began?) && forall i | 0 < i < |log| :: log[i].Began? <==> log[i - 1].Ended?
  }

  /** A fetch has begun and not ended. */
  predicate Running(log: seq<Note>) {
    log != [] && log[|log| - 1].Began?
  }

  predicate TimesUpTo(log: seq<Note>, clock: Time) {
    (forall i, j | 0 <= i < j < |log| :: log[i].at <= log[j].at) && forall i | 0 <= i < |log| :: log[i].at <= clock
  }

  /** No fetch begins within the window after a miss. */
  predicate Spaced(log: seq<Note>, window: Time) {
    forall i, j | 0 <= i < j < |log| && log[i].Ended? && !log[i].hit && log[j].Began? :: log[j].at - log[i].at >= window
  }

  predicate LogKept(g: Config, s: System) {
    && InTurn(s.log) && TimesUpTo(s.log, s.clock) && Spaced(s.log, g.window)
    && (s.shared.inflight.Some? <==> Running(s.log))
    && s.shared.lastMiss == LastMiss(s.log) && s.shared.keys == LastServed(s.log)
  }

  predicate FetcherOf(s: System, id: nat, f: nat) {
    id in s.callers && s.callers[id].Fetching? && s.callers[id].flight == f
  }

  /** Exactly the flight in the shared state has a fetcher, one; who waits, waits for it or for a closed one. */
  ghost predicate CallersKept(s: System) {
    && (forall id | id in s.callers && s.callers[id].Fetching? :: s.shared.inflight == Some(s.callers[id].flight))
    && (forall i, j | i in s.callers && j in s.callers && s.callers[i].Fetching? && s.callers[j].Fetching? :: i == j)
    && (s.shared.inflight.Some? ==> exists id :: FetcherOf(s, id, s.shared.inflight.value))
    && (forall id | id in s.callers && s.callers[id].Waiting? ::
          s.callers[id].flight in s.shared.closed || s.shared.inflight == Some(s.callers[id].flight))
    && (forall f | f in s.shared.closed :: f < s.shared.next)
    && (s.shared.inflight.Some? ==> s.shared.inflight.value < s.shared.next && s.shared.inflight.value !in s.shared.closed)
  }

  /** Some key set that the issuer served verifies the token with this payload. */
  ghost predicate Vouched(v: Checker, log: seq<Note>, tok: Token, payload: string) {
    exists i | 0 <= i < |log| :: VouchedBy(v, log[i], tok, payload)
  }

  predicate VouchedBy(v: Checker, note: Note, tok: Token, payload: string) {
    note.Ended? && note.served.Some? && Found(v, note.served.value, tok) == Some(payload)
  }

  ghost predicate ResultsKept(g: Config, s: System) {
    forall id | id in s.callers && s.callers[id].Returned? && s.callers[id].result.Verified? ::
      Vouched(g.v, s.log, s.callers[id].tok, s.callers[id].result.payload)
  }

  lemma {:induction false} LastMissIsLatest(log: seq<Note>, clock: Time)
    requires TimesUpTo(log, clock)
    ensures LastMiss(log).None? ==> forall i | 0 <= i < |log| :: !(log[i].Ended? && !log[i].hit)
    ensures LastMiss(log).Some? ==> forall i | 0 <= i < |log| && log[i].Ended? && !log[i].hit :: log[i].at <= LastMiss(log).value
  {
    if log != [] {
      assert forall i | 0 <= i < |log| - 1 :: log[..|log| - 1][i] == log[i];
      LastMissIsLatest(log[..|log| - 1], clock);
    }
  }

  lemma TurnsGrow(log: seq<Note>, note: Note)
    requires InTurn(log) && (note.Began? <==> !Running(log))
    ensures InTurn(log + [note])
  {
  }

  lemma TimesGrow(log: seq<Note>, note: Note, clock: Time)
    requires TimesUpTo(log, clock) && clock <= note.at
    ensures TimesUpTo(log + [note], note.at)
  {
  }

  lemma SpaceGrows(log: seq<Note>, note: Note, clock: Time, window: Time)
    requires TimesUpTo(log, clock) && Spaced(log, window)
    requires note.Began? && LastMiss(log).Some? ==> note.at - LastMiss(log).value >= window
    ensures Spaced(log + [note], window)
  {
    LastMissIsLatest(log, clock);
    hide TimesUpTo, LastMiss;
  }

  lemma LastsGrow(log: seq<Note>, note: Note)
    ensures LastMiss(log + [note]) == if note.Ended? && !note.hit then Some(note.at) else LastMiss(log)
    ensures LastServed(log + [note]) == if note.Ended? && note.served.Some? then note.served.value else LastServed(log)
  {
    assert (log + [note])[..|log|] == log;
  }

  lemma LogNext(g: Config, s: System, e: Event, t: Time)
    requires Enabled(s, e) && s.clock <= t && LogKept(g, s) && CallersKept(s)
    ensures LogKept(g, Next(g, s, e, t))
  {
    var s' := Next(g, s, e, t);
    if s'.log != s.log {
      var note := s'.log[|s.log|];
      assert s'.log == s.log + [note];
      hide InTurn, TimesUpTo, Spaced, LastMiss, LastServed, Found, FetcherOf;
      TurnsGrow(s.log, note);
      TimesGrow(s.log, note, s.clock);
      SpaceGrows(s.log, note, s.clock, g.window);
      LastsGrow(s.log, note);
      assert Running(s'.log) <==> note.Began?;
    } else {
      hide InTurn, Spaced, LastMiss, LastServed, Found;
    }
  }

  lemma CallersNext(g: Config, s: System, e: Event, t: Time)
    requires Enabled(s, e) && CallersKept(s)
    ensures CallersKept(Next(g, s, e, t))
  {
    hide Found;
    var s' := Next(g, s, e, t);
    if s'.shared.inflight.Some? {
      if e.Proceed? && Entering(s.shared, g.window, t).1.Start? {
        assert FetcherOf(s', e.id, s'.shared.inflight.value);
      } else {
        var id :| FetcherOf(s, id, s.shared.inflight.value);
        assert FetcherOf(s', id, s'.shared.inflight.value);
      }
    }
  }

  lemma {:induction false} LastServedVouches(v: Checker, log: seq<Note>, tok: Token, payload: string)
    requires Found(v, LastServed(log), tok) == Some(payload)
    ensures Vouched(v, log, tok, payload)
  {
    var n := |log| - 1;
    assert log != [];
    if log[n].Ended? && log[n].served.Some? {
      assert VouchedBy(v, log[n], tok, payload);
    } else {
      LastServedVouches(v, log[..n], tok, payload);
      var i :| 0 <= i < n && VouchedBy(v, log[..n][i], tok, payload);
      assert VouchedBy(v, log[i], tok, payload);
    }
  }

  lemma VouchedLater(v: Checker, log: seq<Note>, note: Note, tok: Token, payload: string)
    requires Vouched(v, log, tok, payload)
    ensures Vouched(v, log + [note], tok, payload)
  {
    var i :| 0 <= i < |log| && VouchedBy(v, log[i], tok, payload);
    assert VouchedBy(v, (log + [note])[i], tok, payload);
  }

  lemma ResultsNext(g: Config, s: System, e: Event, t: Time)
    requires Enabled(s, e) && LogKept(g, s) && ResultsKept(g, s)
    ensures ResultsKept(g, Next(g, s, e, t))
  {
    hide InTurn, TimesUpTo, Spaced, LastMiss, LastServed, Found, Vouched, Entering;
    var s' := Next(g, s, e, t);
    forall id | id in s'.callers && s'.callers[id].Returned? && s'.callers[id].result.Verified?
      ensures Vouched(g.v, s'.log, s'.callers[id].tok, s'.callers[id].result.payload)
    {
      var tok, payload := s'.callers[id].tok, s'.callers[id].result.payload;
      if id != e.id {
        if s'.log != s.log {
          VouchedLater(g.v, s.log, s'.log[|s.log|], tok, payload);
        }
      } else if e.Settle? {
        SettleVouches(g.v, s'.log, tok, payload);
      } else {
        LastServedVouches(g.v, s.log, tok, payload);
      }
    }
  }

  lemma SettleVouches(v: Checker, log: seq<Note>, tok: Token, payload: string)
    requires log != [] && VouchedBy(v, log[|log| - 1], tok, payload)
    ensures Vouched(v, log, tok, payload)
  {
  }

  lemma {:induction false} KeptAlways(g: Config, steps: seq<Timed>)
    requires Run(g, steps)
    ensures LogKept(g, After(g, steps)) && CallersKept(After(g, steps)) && ResultsKept(g, After(g, steps))
    decreases |steps|
  {
    if steps != [] {
      var n := |steps| - 1;
      KeptAlways(g, steps[..n]);
      hide LogKept, CallersKept, ResultsKept, Next, Enabled;
      LogNext(g, After(g, steps[..n]), steps[n].event, steps[n].at);
      CallersNext(g, After(g, steps[..n]), steps[n].event, steps[n].at);
      ResultsNext(g, After(g, steps[..n]), steps[n].event, steps[n].at);
    }
  }

  // ---- The promises -------------------------------------------------------------------------

  /** At most one fetch is in flight, under any interleaving. */
  lemma SingleFlight(g: Config, steps: seq<Timed>, i: nat, j: nat)
    requires Run(g, steps) && i in After(g, steps).callers && j in After(g, steps).callers
    requires After(g, steps).callers[i].Fetching? && After(g, steps).callers[j].Fetching?
    ensures i == j && InTurn(After(g, steps).log)
  {
    KeptAlways(g, steps);
  }

  /** No fetch begins before the window after the latest miss has passed. */
  lemma FetchesKeepTheWindow(g: Config, steps: seq<Timed>, i: nat, j: nat)
    requires Run(g, steps) && i < j < |After(g, steps).log|
    requires var log := After(g, steps).log; log[i].Ended? && !log[i].hit && log[j].Began?
    ensures After(g, steps).log[j].at >= After(g, steps).log[i].at + g.window
  {
    KeptAlways(g, steps);
  }

  lemma {:induction false} LastMissIsThere(log: seq<Note>) returns (i: nat)
    requires LastMiss(log).Some?
    ensures i < |log| && log[i].Ended? && !log[i].hit && log[i].at == LastMiss(log).value
  {
    var n := |log| - 1;
    if log[n].Ended? && !log[n].hit {
      i := n;
    } else {
      i := LastMissIsThere(log[..n]);
    }
  }

  /** Some fetch ended without verifying anything less than a window ago. */
  predicate RecentMiss(log: seq<Note>, t: Time, window: Time) {
    exists i | 0 <= i < |log| :: log[i].Ended? && !log[i].hit && t < log[i].at + window
  }

  /**
   What becomes of a caller whose token no held key verifies, in every reachable state: it waits if and only if a
   fetch is running, and then for that one; it is turned away if and only if none is and some fetch missed less
   than a window ago; otherwise it fetches.
   */
  lemma ProceedMeans(g: Config, steps: seq<Timed>, id: nat, t: Time)
    requires Run(g, steps) && Enabled(After(g, steps), Proceed(id)) && After(g, steps).clock <= t
    ensures var s := After(g, steps);
            var s' := Next(g, s, Proceed(id), t);
            var tok := s.callers[id].tok;
            if Running(s.log) then
              && s'.log == s.log && s'.shared == s.shared && s'.callers[id].Waiting? && s'.callers[id].tok == tok
              && exists fetcher :: FetcherOf(s, fetcher, s'.callers[id].flight)
            else if RecentMiss(s.log, t, g.window) then
              s'.log == s.log && s'.shared == s.shared && s'.callers[id] == Returned(tok, RateLimited)
            else
              s'.log == s.log + [Began(t)] && s'.callers[id].Fetching? && s'.callers[id].tok == tok
  {
    KeptAlways(g, steps);
    var s := After(g, steps);
    RunningMeans(g, s);
    MissIsRecent(s.log, s.clock, t, g.window);
    hide After, Run, Found, LogKept, ResultsKept, Running, RecentMiss;
  }

  lemma RunningMeans(g: Config, s: System)
    requires LogKept(g, s) && CallersKept(s)
    ensures Running(s.log) <==> s.shared.inflight.Some?
    ensures TimesUpTo(s.log, s.clock) && s.shared.lastMiss == LastMiss(s.log)
    ensures s.shared.inflight.Some? ==> exists fetcher :: FetcherOf(s, fetcher, s.shared.inflight.value)
  {
  }

  lemma MissIsRecent(log: seq<Note>, clock: Time, t: Time, window: Time)
    requires TimesUpTo(log, clock)
    ensures RecentMiss(log, t, window) <==> LastMiss(log).Some? && t < LastMiss(log).value + window
  {
    LastMissIsLatest(log, clock);
    if LastMiss(log).Some? {
      var i := LastMissIsThere(log);
    }
  }

  /** A fetcher whose token the served keys verify is let in, and so is a waiter whose token the held keys verify. */
  lemma ServedKeysLetIn(g: Config, steps: seq<Timed>, id: nat, served: Option<seq<Jwk>>, t: Time)
    requires Run(g, steps)
    ensures var s := After(g, steps);
            && (Enabled(s, Settle(id, served)) ==>
                  (Next(g, s, Settle(id, served), t).callers[id].result.Verified? <==> served.Some? && Verifies(g.v, served.value, s.callers[id].tok)))
            && (Enabled(s, Wake(id)) ==>
                  (Next(g, s, Wake(id), t).callers[id].result.Verified? <==> Verifies(g.v, LastServed(s.log), s.callers[id].tok)))
  {
    KeptAlways(g, steps);
    var s := After(g, steps);
    hide After, Run, LastServed, LastMiss, Found, Verifies, CallersKept, ResultsKept;
    if Enabled(s, Settle(id, served)) && served.Some? {
      FoundIfVerifies(g.v, served.value, s.callers[id].tok);
    }
    if Enabled(s, Wake(id)) {
      FoundIfVerifies(g.v, s.shared.keys, s.callers[id].tok);
    }
  }

  /** A waiting caller can return, or somebody is fetching for it, and that fetch's end, however it ends, frees it. */
  lemma WaitersAreReleased(g: Config, steps: seq<Timed>, id: nat, served: Option<seq<Jwk>>, t: Time)
    requires Run(g, steps) && id in After(g, steps).callers && After(g, steps).callers[id].Waiting?
    ensures var s := After(g, steps);
            Enabled(s, Wake(id)) || exists fetcher :: Enabled(s, Settle(fetcher, served)) && Enabled(Next(g, s, Settle(fetcher, served), t), Wake(id))
  {
    KeptAlways(g, steps);
    var s := After(g, steps);
    if !Enabled(s, Wake(id)) {
      var fetcher :| FetcherOf(s, fetcher, s.shared.inflight.value);
      assert Enabled(s, Settle(fetcher, served)) && Enabled(Next(g, s, Settle(fetcher, served), t), Wake(id));
    }
  }

  /** A token that a held key verifies is answered at once: no state, fetch or other caller is touched. */
  lemma {:induction false} CachedTokensStayLocal(g: Config, steps: seq<Timed>, id: nat, tok: Token, t: Time)
    requires Run(g, steps) && id !in After(g, steps).callers && Found(g.v, LastServed(After(g, steps).log), tok).Some?
    ensures var s := After(g, steps);
            var s' := Next(g, s, Arrive(id, tok), t);
            && s'.shared == s.shared && s'.log == s.log && s'.callers - {id} == s.callers
            && s'.callers[id].Returned? && s'.callers[id].result.Verified?
  {
    KeptAlways(g, steps);
    hide InTurn, TimesUpTo, Spaced, LastMiss, LastServed, Found;
  }

  /** Nobody is let in on a key that the issuer did not serve. */
  lemma VerifiedMeansServed(g: Config, steps: seq<Timed>, id: nat)
    requires Run(g, steps) && id in After(g, steps).callers
    requires After(g, steps).callers[id].Returned? && After(g, steps).callers[id].result.Verified?
    ensures Vouched(g.v, After(g, steps).log, After(g, steps).callers[id].tok, After(g, steps).callers[id].result.payload)
  {
    KeptAlways(g, steps);
  }

  function Windows(n: nat, window: Time): Time {
    if n == 0 then 0 else Windows(n - 1, window) + window
  }

  lemma OneWindowApart(log: seq<Note>, clock: Time, window: Time, i: nat)
    requires InTurn(log) && TimesUpTo(log, clock) && Spaced(log, window) && i + 2 < |log| && log[i].Began?
    requires forall j | 0 <= j < |log| && log[j].Ended? :: !log[j].hit
    ensures log[i + 2].at - log[i].at >= window
  {
    assert log[i + 1].Ended? && log[i + 2].Began?;
  }

  lemma {:induction false} EveryOtherBegins(log: seq<Note>, k: nat)
    requires InTurn(log) && 2 * k < |log|
    ensures log[2 * k].Began?
  {
    if k > 0 {
      EveryOtherBegins(log, k - 1);
      assert log[2 * k - 1].Ended?;
    }
  }

  /** While no fetch verifies anything, n fetches apart means n windows apart: a flood costs one fetch a window. */
  lemma {:induction false} FloodCostsOneFetchPerWindow(g: Config, steps: seq<Timed>, k: nat, n: nat)
    requires Run(g, steps)
    requires var log := After(g, steps).log; 2 * (k + n) < |log| && forall i | 0 <= i < |log| && log[i].Ended? :: !log[i].hit
    ensures var log := After(g, steps).log; log[2 * (k + n)].at - log[2 * k].at >= Windows(n, g.window)
  {
    if n > 0 {
      FloodCostsOneFetchPerWindow(g, steps, k, n - 1);
      KeptAlways(g, steps);
      var s := After(g, steps);
      hide After, Run, InTurn, TimesUpTo, Spaced, CallersKept, ResultsKept;
      assert 2 * (k + n) == 2 * (k + n - 1) + 2;
      EveryOtherBegins(s.log, k + n - 1);
      OneWindowApart(s.log, s.clock, g.window, 2 * (k + n - 1));
    }
  }
}
