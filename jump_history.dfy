/**
 * The jump list over a sequence of invocations. Each invocation is given by
 * where the caret lands (None: the session was cancelled).
 *
 * As written, `finish` computes the rollback decision but leaves the jump
 * list alone (`dropLast` returns a new list that is discarded), so every
 * invocation leaves an entry, cancelled or not: `Run`. The evidently
 * intended behaviour removes the entry just saved whenever the rollback is
 * requested: `InvokeIntended` and `RunIntended`.
 */
module JumpHistory {
  import opened Wrappers
  import opened HostEditor
  import opened Processors

  /** Successive invocations, as written. */
  function Run(m: MotionType, e: Host, targets: seq<Option<int>>): Host
    decreases |targets|
  {
    if targets == [] then e else Run(m, Invoke(m, e, targets[0]).host, targets[1..])
  }

  /** Where the caret ends after the invocations. */
  function FinalCaret(c: int, targets: seq<Option<int>>): int
    decreases |targets|
  {
    if targets == [] then c else FinalCaret(targets[0].GetOr(c), targets[1..])
  }

  /** The caret offset before each invocation, in order. */
  function Origins(c: int, targets: seq<Option<int>>): (r: seq<int>)
    decreases |targets|
  {
    if targets == [] then [] else [c] + Origins(targets[0].GetOr(c), targets[1..])
  }

  /** The caret offset before each invocation that moved the caret, in order. */
  function MovedOrigins(c: int, targets: seq<Option<int>>): (r: seq<int>)
    decreases |targets|
  {
    if targets == [] then []
    else (if targets[0].Some? && targets[0].value != c then [c] else [])
         + MovedOrigins(targets[0].GetOr(c), targets[1..])
  }

  /**
   * As written, each invocation leaves exactly one entry, at the caret it
   * started from, whether it moved the caret or not; the reset binding is
   * gone after the last one.
   */
  lemma {:induction false} RunJumps(m: MotionType, e: Host, targets: seq<Option<int>>)
    ensures Run(m, e, targets).jumps == e.jumps + Origins(e.caret, targets)
    ensures Run(m, e, targets).caret == FinalCaret(e.caret, targets)
    ensures targets != [] ==> !Run(m, e, targets).resetRegistered
    decreases |targets|
  {
    if targets != [] {
      var o := Invoke(m, e, targets[0]);
      RunJumps(m, o.host, targets[1..]);
      assert e.jumps + Origins(e.caret, targets)
          == (e.jumps + [e.caret]) + Origins(targets[0].GetOr(e.caret), targets[1..]);
    }
  }

  /** As written: a cancelled invocation requests the rollback, yet its entry stays. */
  lemma CancelLeavesStrayEntry(m: MotionType, e: Host)
    ensures Invoke(m, e, None).rollback
    ensures Run(m, e, [None]).jumps == e.jumps + [e.caret]
  {
  }

  /**
   * The jump list once the requested rollback is carried out (`dropLast(1)`
   * with its result kept): what remains is a prefix of the list, one entry
   * shorter exactly when a rollback was requested and there was an entry.
   */
  function DropRolledBack(jumps: seq<int>, rollback: bool): (r: seq<int>)
    ensures |r| <= |jumps| && r == jumps[..|r|]
    ensures |jumps| - |r| == (if rollback && jumps != [] then 1 else 0)
  {
    if rollback && jumps != [] then jumps[..|jumps| - 1] else jumps
  }

  /**
   * One invocation with the rollback carried out: the jump list gains the
   * starting caret exactly when the caret moved; the rest is as written.
   */
  function InvokeIntended(m: MotionType, e: Host, target: Option<int>): (o: Finished)
    ensures o.host.jumps ==
      e.jumps + (if target.Some? && target.value != e.caret then [e.caret] else [])
    ensures o.host.caret == target.GetOr(e.caret) && !o.host.resetRegistered
    ensures o == Invoke(m, e, target).(host := o.host)
    ensures o.host == Invoke(m, e, target).host.(jumps := o.host.jumps)
  {
    var o := Invoke(m, e, target);
    assert (e.jumps + [e.caret])[..|e.jumps|] == e.jumps;
    o.(host := o.host.(jumps := DropRolledBack(o.host.jumps, o.rollback)))
  }

  /**
   * A jump from the caret to p1 followed by a cancelled session: as written
   * (with `saveJumpLocation` a plain append) the jump list holds both starting
   * carets, the cancelled session's included; with the rollback carried out
   * it holds only the first.
   */
  lemma CancelAfterJump(m: MotionType, e: Host, p1: int)
    requires e.caret != p1
    ensures Run(m, e, [Some(p1), None]).jumps == e.jumps + [e.caret, p1]
    ensures RunIntended(m, e, [Some(p1), None]).jumps == e.jumps + [e.caret]
  {
    var targets := [Some(p1), None];
    RunJumps(m, e, targets);
    RunIntendedJumps(m, e, targets);
    assert targets[1..] == [None];
    assert targets[1..][1..] == [];
    assert Origins(p1, targets[1..]) == [p1];
    assert MovedOrigins(p1, targets[1..]) == [];
  }

  /** Successive invocations with the rollback carried out. */
  function RunIntended(m: MotionType, e: Host, targets: seq<Option<int>>): Host
    decreases |targets|
  {
    if targets == [] then e else RunIntended(m, InvokeIntended(m, e, targets[0]).host, targets[1..])
  }

  /**
   * With the rollback carried out, the jump list gains exactly the starting
   * caret of each invocation that moved the caret: a cancelled session or a
   * jump onto the caret leaves no stray entry.
   */
  lemma {:induction false} RunIntendedJumps(m: MotionType, e: Host, targets: seq<Option<int>>)
    ensures RunIntended(m, e, targets).jumps == e.jumps + MovedOrigins(e.caret, targets)
    ensures RunIntended(m, e, targets).caret == FinalCaret(e.caret, targets)
    ensures targets != [] ==> !RunIntended(m, e, targets).resetRegistered
    decreases |targets|
  {
    if targets != [] {
      var o := InvokeIntended(m, e, targets[0]);
      RunIntendedJumps(m, o.host, targets[1..]);
      var moved := if targets[0].Some? && targets[0].value != e.caret then [e.caret] else [];
      assert o.host.jumps == e.jumps + moved;
      assert e.jumps + MovedOrigins(e.caret, targets)
          == (e.jumps + moved) + MovedOrigins(targets[0].GetOr(e.caret), targets[1..]);
    }
  }

  /**
   * The "jump with skipping" scenario: a jump from p0 to p1, a cancelled
   * session at p1, then jumps to p2 and p3. With the rollback carried out the
   * jump list holds exactly p0, p1, p2; as written, with `saveJumpLocation`
   * a plain append, it keeps the cancelled session's entry as well.
   */
  lemma SkippingScenario(m: MotionType, e: Host, p1: int, p2: int, p3: int)
    requires e.caret != p1 && p1 != p2 && p2 != p3
    ensures RunIntended(m, e, [Some(p1), None, Some(p2), Some(p3)]).jumps == e.jumps + [e.caret, p1, p2]
    ensures Run(m, e, [Some(p1), None, Some(p2), Some(p3)]).jumps == e.jumps + [e.caret, p1, p1, p2]
  {
    var targets := [Some(p1), None, Some(p2), Some(p3)];
    RunIntendedJumps(m, e, targets);
    RunJumps(m, e, targets);
    assert targets[1..] == [None, Some(p2), Some(p3)];
    assert targets[1..][1..] == [Some(p2), Some(p3)];
    assert targets[1..][1..][1..] == [Some(p3)];
    assert targets[1..][1..][1..][1..] == [];
    assert MovedOrigins(p2, [Some(p3)]) == [p2] + MovedOrigins(p3, []);
    assert MovedOrigins(p1, targets[1..][1..]) == [p1, p2];
    assert MovedOrigins(p1, targets[1..]) == [p1, p2];
    assert MovedOrigins(e.caret, targets) == [e.caret, p1, p2];
    assert Origins(p2, [Some(p3)]) == [p2] + Origins(p3, []);
    assert Origins(p1, targets[1..][1..]) == [p1, p2];
    assert Origins(p1, targets[1..]) == [p1, p1, p2];
    assert Origins(e.caret, targets) == [e.caret, p1, p1, p2];
  }
}
