/**
  The SSH port counter.  Booting a machine increments it and, when the number is out of range, sets
  it back in a second command; boots run concurrently.
*/
module Ports {
  import opened Prelude

  const LOW := 22000
  const HIGH := 23000
  const START := 22100

  /** The number is out of range, so the counter is set back. */
  predicate OutOfRange(port: int) {
    port < LOW || port >= HIGH
  }

  function Restart(port: int): int {
    if port < LOW then START else LOW
  }

  // ---------------------------------------------------------------------------
  // Boots that do not overlap
  // ---------------------------------------------------------------------------

  /** The counter after a boot that got `port` and was alone. */
  function After(port: int): int {
    if OutOfRange(port) then Restart(port) else port
  }

  class Redis {
    var counter: int

    /** The missing key counts as 0. */
    constructor ()
      ensures counter == 0
    {
      counter := 0;
    }

    /** The first commands of Boot. */
    method AssignPort() returns (port: int)
      modifies this
      ensures port == old(counter) + 1 && counter == After(port)
    {
      counter := counter + 1;
      port := counter;
      if port < 22000 {
        counter := 22100;
      } else if port >= 23000 {
        counter := 22000;
      }
    }
  }

  /** The n-th port handed out when boots do not overlap. */
  function Nth(n: nat): int {
    if n == 0 then 1 else After(Nth(n - 1)) + 1
  }

  /** Apart from the very first, which is 1, the ports are 22001 to 23000 in turn, starting at 22101. */
  lemma {:induction false} NthPort(n: nat)
    ensures Nth(n) == if n == 0 then 1 else 22001 + (n + 99) % 1000
  {
    if n > 1 {
      NthPort(n - 1);
    }
  }

  /** After the first, two boots get the same port exactly when a multiple of 1000 lies between them. */
  lemma PortsRepeatEveryThousand(i: nat, j: nat)
    requires 0 < i <= j
    ensures Nth(i) == Nth(j) <==> (j - i) % 1000 == 0
  {
    NthPort(i);
    NthPort(j);
    SameRest(i + 99, j - i);
  }

  lemma SameRest(x: nat, d: nat)
    ensures (x + d) % 1000 == x % 1000 <==> d % 1000 == 0
  {
  }

  // ---------------------------------------------------------------------------
  // Boots that overlap
  // ---------------------------------------------------------------------------

  /** A port handed out; `settled` when the counter had been set before. */
  datatype Issue = Issue(port: int, settled: bool)

  /** `pending` are the boots between their two commands, `peak` the most there have been at once. */
  datatype State = State(counter: int, pending: map<nat, int>, issued: seq<Issue>, peak: nat, sets: nat, failed: nat)

  const Initial := State(0, map[], [], 0, 0, 0)

  datatype Action =
    | Incr(boot: nat)
    | Set(boot: nat)
    | SetFails(boot: nat)

  predicate Enabled(s: State, a: Action) {
    match a
    case Incr(boot) => boot !in s.pending
    case Set(boot) => boot in s.pending
    case SetFails(boot) => boot in s.pending
  }

  function Apply(s: State, a: Action): State
    requires Enabled(s, a)
  {
    match a
    case Incr(boot) =>
      var port := s.counter + 1;
      var pending := if OutOfRange(port) then s.pending[boot := port] else s.pending;
      s.(counter := port, issued := s.issued + [Issue(port, s.sets > 0)], pending := pending,
         peak := if |pending| > s.peak then |pending| else s.peak)
    case Set(boot) =>
      s.(counter := Restart(s.pending[boot]), pending := s.pending - {boot}, sets := s.sets + 1)
    case SetFails(boot) =>
      s.(pending := s.pending - {boot}, failed := s.failed + 1)
  }

  /** The state after the actions, taken in order; None when one of them was not possible. */
  function Run(acts: seq<Action>): Option<State> {
    if acts == [] then Some(Initial)
    else
      var n := |acts| - 1;
      var before := Run(acts[..n]);
      if before.Some? && Enabled(before.value, acts[n]) then Some(Apply(before.value, acts[n])) else None
  }

  function Count(acts: seq<Action>, sets: bool): nat {
    if acts == [] then 0
    else
      var last := acts[|acts| - 1];
      Count(acts[..|acts| - 1], sets) + (if (if sets then last.Set? else last.SetFails?) then 1 else 0)
  }

  function Boots(acts: seq<Action>): nat {
    if acts == [] then 0 else Boots(acts[..|acts| - 1]) + (if acts[|acts| - 1].Incr? then 1 else 0)
  }

  /** The tallies are those of the actions; the peak has been reached and never exceeded. */
  lemma {:induction false} TalliesAreRight(acts: seq<Action>)
    requires Run(acts).Some?
    ensures var s := Run(acts).value;
      && s.sets == Count(acts, true) && s.failed == Count(acts, false) && |s.issued| == Boots(acts)
      && |s.pending| <= s.peak
      && exists n :: 0 <= n <= |acts| && Run(acts[..n]).Some? && |Run(acts[..n]).value.pending| == s.peak
  {
    if acts == [] {
      assert acts[..0] == [] && |Run(acts[..0]).value.pending| == 0;
    } else {
      var k := |acts| - 1;
      TalliesAreRight(acts[..k]);
      var s, s' := Run(acts[..k]).value, Run(acts).value;
      assert acts[..|acts|] == acts;
      if s'.peak == s.peak {
        var n :| 0 <= n <= k && Run(acts[..k][..n]).Some? && |Run(acts[..k][..n]).value.pending| == s.peak;
        assert acts[..k][..n] == acts[..n];
      }
    }
  }

  predicate Inv(s: State) {
    && s.counter >= 0 && |s.pending| <= s.peak
    && s.counter <= 22999 + |s.pending| + s.failed
    && (s.sets > 0 ==> s.counter >= LOW)
    && forall i | 0 <= i < |s.issued| ::
         s.issued[i].port <= 22999 + s.peak + s.failed && (s.issued[i].settled ==> s.issued[i].port > LOW)
  }

  lemma ApplyKeepsInv(s: State, a: Action)
    requires Inv(s) && Enabled(s, a)
    ensures Inv(Apply(s, a))
  {
  }

  lemma {:induction false} RunKeepsInv(acts: seq<Action>)
    requires Run(acts).Some?
    ensures Inv(Run(acts).value)
  {
    if acts != [] {
      RunKeepsInv(acts[..|acts| - 1]);
      ApplyKeepsInv(Run(acts[..|acts| - 1]).value, acts[|acts| - 1]);
    }
  }

  /**
    However boots interleave, no port exceeds 22999 by more than the boots that were waiting to set
    the counter at once and the sets that failed; once the counter has been set it stays at 22000 or
    above, and so do the ports.
  */
  lemma PortsStayInRange(acts: seq<Action>)
    requires Run(acts).Some?
    ensures var s := Run(acts).value;
      && (s.sets > 0 ==> s.counter >= 22000)
      && forall i | 0 <= i < |s.issued| ::
           && s.issued[i].port <= 22999 + s.peak + s.failed
           && (s.issued[i].settled ==> s.issued[i].port > 22000)
  {
    RunKeepsInv(acts);
  }

  /** A boot that no other overlaps does in two steps what AssignPort does. */
  lemma LoneBoot(s: State, boot: nat)
    requires Inv(s) && s.pending == map[]
    ensures var port, s1 := s.counter + 1, Apply(s, Incr(boot));
      && s1.issued == s.issued + [Issue(port, s.sets > 0)]
      && (Enabled(s1, Set(boot)) <==> OutOfRange(port))
      && (if Enabled(s1, Set(boot)) then Apply(s1, Set(boot)).counter else s1.counter) == After(port)
  {
  }

  /** The ports handed out are those of boots that do not overlap. */
  predicate InTurn(issued: seq<Issue>) {
    forall i | 0 <= i < |issued| :: issued[i].port == Nth(i)
  }

  /** No boot began while another had its counter still to set, or after one had failed to. */
  predicate Undisturbed(acts: seq<Action>)
    requires Run(acts).Some?
  {
    acts == [] ||
    var n := |acts| - 1;
    Undisturbed(acts[..n]) &&
    (acts[n].Incr? ==> Run(acts[..n]).value.pending == map[] && Run(acts[..n]).value.failed == 0)
  }

  /** Between two undisturbed boots, or while one has its counter still to set or has failed to. */
  predicate OneAtATime(s: State) {
    var n := |s.issued|;
    if s.pending == map[] && s.failed == 0 then s.counter == if n == 0 then 0 else After(Nth(n - 1))
    else n > 0 && s.counter == Nth(n - 1) && OutOfRange(s.counter)
         && forall b | b in s.pending :: s.pending[b] == s.counter
  }

  /** A boot that comes too early gets a port out of turn. */
  lemma EarlyBootIsOutOfTurn(s: State)
    requires OneAtATime(s) && !(s.pending == map[] && s.failed == 0)
    ensures s.counter + 1 != Nth(|s.issued|)
  {
  }

  ghost predicate OneBootPends(s: State) {
    (s.failed == 0 || s.pending == map[]) && forall a, b | a in s.pending && b in s.pending :: a == b
  }

  lemma ApplyStaysInTurn(s: State, a: Action)
    requires OneAtATime(s) && OneBootPends(s) && InTurn(s.issued) && Enabled(s, a)
    requires a.Incr? ==> s.pending == map[] && s.failed == 0
    ensures OneAtATime(Apply(s, a)) && OneBootPends(Apply(s, a)) && InTurn(Apply(s, a).issued)
  {
    if !a.Incr? {
      assert (s.pending - {a.boot}).Keys == {};
      assert s.pending - {a.boot} == map[];
    }
  }

  lemma {:induction false} UndisturbedIsInTurn(acts: seq<Action>)
    requires Run(acts).Some?
    ensures InTurn(Run(acts).value.issued) <==> Undisturbed(acts)
    ensures Undisturbed(acts) ==> OneAtATime(Run(acts).value) && OneBootPends(Run(acts).value)
    decreases |acts|
  {
    if acts != [] {
      var n := |acts| - 1;
      UndisturbedIsInTurn(acts[..n]);
      var s, s' := Run(acts[..n]).value, Run(acts).value;
      IssuedGrows(s, acts[n]);
      if Undisturbed(acts) {
        ApplyStaysInTurn(s, acts[n]);
      } else if Undisturbed(acts[..n]) {
        EarlyBootIsOutOfTurn(s);
      }
    }
  }

  lemma IssuedGrows(s: State, a: Action)
    requires Enabled(s, a)
    ensures s.issued <= Apply(s, a).issued
    ensures a.Incr? ==> |Apply(s, a).issued| == |s.issued| + 1 && Apply(s, a).issued[|s.issued|].port == s.counter + 1
    ensures InTurn(Apply(s, a).issued) ==> InTurn(s.issued)
  {
  }

  /** So two undisturbed boots after the first get the same port exactly when a multiple of 1000 lies between them. */
  lemma UndisturbedPortsAreDistinct(acts: seq<Action>, i: nat, j: nat)
    requires Run(acts).Some? && Undisturbed(acts) && 0 < i <= j < |Run(acts).value.issued|
    ensures Run(acts).value.issued[i].port == Run(acts).value.issued[j].port <==> (j - i) % 1000 == 0
    ensures i < j < i + 1000 ==> Run(acts).value.issued[i].port != Run(acts).value.issued[j].port
  {
    UndisturbedIsInTurn(acts);
    PortsRepeatEveryThousand(i, j);
  }

  /** When two boots overlap at the end of the range, a port comes again long before 1000 others. */
  lemma OverlapRepeatsPort(s: State, a: nat, b: nat, c: nat, d: nat)
    requires s.counter == 22999 && s.pending == map[] && a != b && b != c && a != c && d != b
    ensures var s1 := Apply(s, Incr(a));
      && Enabled(s1, Incr(b)) && var s2 := Apply(s1, Incr(b));
      && Enabled(s2, Set(a)) && var s3 := Apply(s2, Set(a));
      && Enabled(s3, Incr(c)) && var s4 := Apply(s3, Incr(c));
      && Enabled(s4, Set(b)) && var s5 := Apply(s4, Set(b));
      && Enabled(s5, Incr(d)) && var s6 := Apply(s5, Incr(d));
      && s6.issued == s.issued + [Issue(23000, s.sets > 0), Issue(23001, s.sets > 0),
                                  Issue(22001, true), Issue(22001, true)]
  {
  }
}

/**
  Shell sessions on a finished job's machine.  Each session counts itself in, runs ssh, counts itself
  out, and terminates the job if it was the last.
*/
module Sessions {
  import opened Prelude

  datatype Phase = InSsh | SshEnded | MustTerminate | Gone

  /** `zeros` is how often a session's decrement has returned 0. */
  datatype State = State(counter: int, sessions: map<nat, Phase>, zeros: nat, terminates: nat)

  const Initial := State(0, map[], 0, 0)

  datatype Action =
    | Incr(session: nat)
    | SshEnds(session: nat)
    | Decr(session: nat)
    | Terminate(session: nat)

  predicate At(s: State, session: nat, phase: Phase) {
    session in s.sessions && s.sessions[session] == phase
  }

  predicate Enabled(s: State, a: Action) {
    match a
    case Incr(session) => session !in s.sessions
    case SshEnds(session) => At(s, session, InSsh)
    case Decr(session) => At(s, session, SshEnded)
    case Terminate(session) => At(s, session, MustTerminate)
  }

  function Apply(s: State, a: Action): State
    requires Enabled(s, a)
  {
    match a
    case Incr(session) => s.(counter := s.counter + 1, sessions := s.sessions[session := InSsh])
    case SshEnds(session) => s.(sessions := s.sessions[session := SshEnded])
    case Decr(session) =>
      var n := s.counter - 1;
      if n == 0 then s.(counter := n, sessions := s.sessions[session := MustTerminate], zeros := s.zeros + 1)
      else s.(counter := n, sessions := s.sessions[session := Gone])
    case Terminate(session) => s.(sessions := s.sessions[session := Gone], terminates := s.terminates + 1)
  }

  /** The state after the actions, taken in order; None when one of them was not possible. */
  function Run(acts: seq<Action>): Option<State> {
    if acts == [] then Some(Initial)
    else
      var n := |acts| - 1;
      var before := Run(acts[..n]);
      if before.Some? && Enabled(before.value, acts[n]) then Some(Apply(before.value, acts[n])) else None
  }

  /** The sessions between their incr and their decr. */
  function Inside(s: State): set<nat> {
    set x | x in s.sessions && (s.sessions[x].InSsh? || s.sessions[x].SshEnded?)
  }

  /** The sessions that got 0 and have not terminated the job yet. */
  function Owing(s: State): set<nat> {
    set x | x in s.sessions && s.sessions[x].MustTerminate?
  }

  predicate Inv(s: State) {
    s.counter == |Inside(s)| && s.zeros == s.terminates + |Owing(s)|
  }

  lemma ApplyKeepsInv(s: State, a: Action)
    requires Inv(s) && Enabled(s, a)
    ensures Inv(Apply(s, a))
  {
    match a
    case Incr(session) => Enter(s, session);
    case SshEnds(session) => StayInside(s, session);
    case Decr(session) => Leave(s, session);
    case Terminate(session) => Report(s, session);
  }

  lemma Enter(s: State, session: nat)
    requires Inv(s) && Enabled(s, Incr(session))
    ensures Inv(Apply(s, Incr(session)))
  {
    var s' := Apply(s, Incr(session));
    EnterInside(s, session);
    assert session !in Inside(s);
    assert |Inside(s) + {session}| == |Inside(s)| + 1;
  }

  lemma EnterInside(s: State, session: nat)
    requires Enabled(s, Incr(session))
    ensures Inside(Apply(s, Incr(session))) == Inside(s) + {session}
    ensures Owing(Apply(s, Incr(session))) == Owing(s)
  {
  }

  lemma StayInside(s: State, session: nat)
    requires Inv(s) && Enabled(s, SshEnds(session))
    ensures Inv(Apply(s, SshEnds(session)))
  {
    var s' := Apply(s, SshEnds(session));
    assert Inside(s') == Inside(s) && Owing(s') == Owing(s);
  }

  lemma LeaveInside(s: State, session: nat)
    requires Enabled(s, Decr(session))
    ensures session in Inside(s) && Inside(Apply(s, Decr(session))) == Inside(s) - {session}
  {
  }

  lemma LeaveOwing(s: State, session: nat)
    requires Enabled(s, Decr(session))
    ensures session !in Owing(s)
    ensures Owing(Apply(s, Decr(session))) == if s.counter == 1 then Owing(s) + {session} else Owing(s)
  {
  }

  lemma Leave(s: State, session: nat)
    requires Inv(s) && Enabled(s, Decr(session))
    ensures Inv(Apply(s, Decr(session)))
  {
    LeaveInside(s, session);
    LeaveOwing(s, session);
  }

  lemma Report(s: State, session: nat)
    requires Inv(s) && Enabled(s, Terminate(session))
    ensures Inv(Apply(s, Terminate(session)))
  {
    var s' := Apply(s, Terminate(session));
    assert Inside(s') == Inside(s) && Owing(s) == Owing(s') + {session};
  }

  lemma {:induction false} RunKeepsInv(acts: seq<Action>)
    requires Run(acts).Some?
    ensures Inv(Run(acts).value)
  {
    if acts != [] {
      RunKeepsInv(acts[..|acts| - 1]);
      ApplyKeepsInv(Run(acts[..|acts| - 1]).value, acts[|acts| - 1]);
    }
  }

  /**
    In every interleaving of sessions that do not crash the counter is the number of sessions between
    incr and decr, and each return of the counter to zero has led, or will lead, to one terminate.
  */
  lemma CounterCountsSessions(acts: seq<Action>)
    requires Run(acts).Some?
    ensures var s := Run(acts).value;
      s.counter == |Inside(s)| && s.zeros == s.terminates + |Owing(s)|
  {
    RunKeepsInv(acts);
  }

  /** What one session does. */
  function Of(acts: seq<Action>, session: nat): seq<Action> {
    if acts == [] then []
    else
      var n := |acts| - 1;
      Of(acts[..n], session) + if acts[n].session == session then [acts[n]] else []
  }

  /** A session counts itself in, runs ssh, counts itself out, and then, if it was the last, terminates the job. */
  lemma {:induction false} SessionsGoInOrder(acts: seq<Action>, x: nat)
    requires Run(acts).Some?
    ensures var s, done := Run(acts).value, Of(acts, x);
      if x !in s.sessions then done == []
      else match s.sessions[x]
        case InSsh => done == [Incr(x)]
        case SshEnded => done == [Incr(x), SshEnds(x)]
        case MustTerminate => done == [Incr(x), SshEnds(x), Decr(x)]
        case Gone => done == [Incr(x), SshEnds(x), Decr(x)] || done == [Incr(x), SshEnds(x), Decr(x), Terminate(x)]
    decreases |acts|
  {
    if acts != [] {
      SessionsGoInOrder(acts[..|acts| - 1], x);
    }
  }

  /** A decrement sends the session to terminate the job exactly when no other session is inside. */
  lemma LastOneOut(acts: seq<Action>, session: nat)
    requires Run(acts).Some? && Enabled(Run(acts).value, Decr(session))
    ensures At(Apply(Run(acts).value, Decr(session)), session, MustTerminate) <==> Inside(Run(acts).value) == {session}
  {
    RunKeepsInv(acts);
    var s := Run(acts).value;
    assert session in Inside(s);
    var others := Inside(s) - {session};
    assert Inside(s) == others + {session};
    if s.counter == 1 {
      assert |others| == 0;
      assert others == {};
    }
  }

  /** The terminate may come late; it meets connected sessions exactly when the counter is positive again. */
  lemma TerminateMeetsSessionExactlyWhenCounted(acts: seq<Action>, session: nat)
    requires Run(acts).Some? && Enabled(Run(acts).value, Terminate(session))
    ensures (exists other :: other != session && other in Inside(Run(acts).value)) <==> Run(acts).value.counter > 0
  {
    RunKeepsInv(acts);
    var s := Run(acts).value;
    assert session !in Inside(s);
    if s.counter > 0 {
      assert Inside(s) != {};
      var other :| other in Inside(s);
    }
  }

  /** The terminate itself may come late: a session that connected in between is still in its shell. */
  lemma TerminateMayHitNewSession(s: State, a: nat, b: nat)
    requires Inv(s) && At(s, a, SshEnded) && Inside(s) == {a} && b !in s.sessions
    ensures var s1 := Apply(s, Decr(a));
      && Enabled(s1, Incr(b)) && var s2 := Apply(s1, Incr(b));
      && Enabled(s2, Terminate(a)) && var s3 := Apply(s2, Terminate(a));
      && s3.terminates == s.terminates + 1 && At(s3, b, InSsh)
  {
  }
}
