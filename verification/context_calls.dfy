/**
 * The context switches a light bake issues, recorded as a trace, and the
 * rule they must follow: a context is entered only when it is not already
 * current, left only when it is, discarded from within itself and
 * disposed only once it is no longer current.
 */
module ContextCalls {
  import opened Options
  import opened GpuHandles

  datatype ContextCall =
    | DrwEnable                       // draw manager's own context
    | DrwDisable
    | GlEnable(gl: GlContext)         // the bake's dedicated OpenGL context
    | GlDisable(gl: GlContext)
    | GwnEnable(gwn: GwnContext?)     // its lightweight companion
    | GwnDisable(gwn: GwnContext?)
    | GwnDiscard(gwn: GwnContext?)
    | GlDispose(gl: GlContext)

  /** What is current on the baking thread. */
  datatype ContextState = ContextState(drw: bool, gl: GlContext?, gwn: GwnContext?)

  /** Nothing current. */
  const Idle := ContextState(false, null, null)

  /** The effect of one call, or None when the call misuses a context. */
  function Step(s: ContextState, c: ContextCall): Option<ContextState>
  {
    match c
    case DrwEnable => if s.drw then None else Some(s.(drw := true))
    case DrwDisable => if s.drw then Some(s.(drw := false)) else None
    case GlEnable(gl) => if s.gl == null then Some(s.(gl := gl)) else None
    case GlDisable(gl) => if s.gl == gl then Some(s.(gl := null)) else None
    case GwnEnable(gwn) =>
      if gwn != null && s.gwn == null then Some(s.(gwn := gwn)) else None
    case GwnDisable(gwn) =>
      if gwn != null && s.gwn == gwn then Some(s.(gwn := null)) else None
    case GwnDiscard(gwn) =>
      if gwn != null && s.gwn == gwn then Some(s.(gwn := null)) else None
    case GlDispose(gl) => if s.gl != gl then Some(s) else None
  }

  /** The state after a whole trace, or None if some call misuses a
      context. */
  function Run(s: ContextState, t: seq<ContextCall>): Option<ContextState>
    decreases |t|
  {
    if t == [] then Some(s)
    else match Step(s, t[0])
      case None => None
      case Some(s') => Run(s', t[1..])
  }

  /** A trace that leaves the thread as it found it with every enable
      matched by its disable before the next enable. */
  ghost predicate Balanced(t: seq<ContextCall>)
  {
    Run(Idle, t) == Some(Idle)
  }

  predicate IsDrwCall(c: ContextCall)
  {
    c.DrwEnable? || c.DrwDisable?
  }

  /** The calls touch the draw manager's context exactly when the bake has
      no dedicated context of its own. */
  ghost predicate UsesOnlyOwnContext(t: seq<ContextCall>, gl: GlContext?)
  {
    forall i :: 0 <= i < |t| ==> (IsDrwCall(t[i]) <==> gl == null)
  }

  /** eevee_lightbake_context_enable. */
  function EnableCalls(gl: GlContext?, gwn: GwnContext?): seq<ContextCall>
  {
    if gl != null then [GlEnable(gl), GwnEnable(gwn)] else [DrwEnable]
  }

  /** eevee_lightbake_context_disable. */
  function DisableCalls(gl: GlContext?, gwn: GwnContext?): seq<ContextCall>
  {
    if gl != null then [GlDisable(gl), GwnDisable(gwn)] else [DrwDisable]
  }

  /** How eevee_lightbake_delete_resources leaves the context it entered:
      the draw manager's is simply left; a dedicated pair is torn down from
      within (the companion is left, re-entered and discarded, then the
      dedicated context is left and disposed). */
  function ReleaseCalls(gl: GlContext?, gwn: GwnContext?): seq<ContextCall>
  {
    if gl != null then
      [GwnDisable(gwn), GwnEnable(gwn), GwnDiscard(gwn), GlDisable(gl), GlDispose(gl)]
    else [DrwDisable]
  }

  /** The switches of eevee_lightbake_delete_resources. */
  function TeardownCalls(gl: GlContext?, gwn: GwnContext?): seq<ContextCall>
  {
    EnableCalls(gl, gwn) + ReleaseCalls(gl, gwn)
  }

  /** Running a concatenation runs its parts one after the other. */
  lemma {:induction false} RunAppend(s: ContextState, a: seq<ContextCall>, b: seq<ContextCall>)
    ensures Run(s, a + b) == match Run(s, a) case None => None case Some(s') => Run(s', b)
    decreases |a|
  {
    if a == [] {
      assert a + b == b;
    } else {
      assert (a + b)[0] == a[0] && (a + b)[1..] == a[1..] + b;
      match Step(s, a[0])
      case None =>
      case Some(s') => RunAppend(s', a[1..], b);
    }
  }

  /** Two balanced traces in a row are balanced. */
  lemma BalancedAppend(a: seq<ContextCall>, b: seq<ContextCall>)
    requires Balanced(a) && Balanced(b)
    ensures Balanced(a + b)
  {
    RunAppend(Idle, a, b);
  }

  /** One enable followed by its disable is balanced, in either mode. */
  lemma BracketBalanced(gl: GlContext?, gwn: GwnContext?)
    requires gl != null ==> gwn != null
    ensures Balanced(EnableCalls(gl, gwn) + DisableCalls(gl, gwn))
  {
    var t := EnableCalls(gl, gwn) + DisableCalls(gl, gwn);
    if gl != null {
      var s1 := Idle.(gl := gl);
      var s2 := s1.(gwn := gwn);
      var s3 := Idle.(gwn := gwn);
      assert t == [GlEnable(gl), GwnEnable(gwn), GlDisable(gl), GwnDisable(gwn)];
      assert Run(s3, [GwnDisable(gwn)]) == Run(Idle, []);
      assert Run(s2, [GlDisable(gl), GwnDisable(gwn)]) == Run(s3, [GwnDisable(gwn)]);
      assert Run(s1, t[1..]) == Run(s2, [GlDisable(gl), GwnDisable(gwn)]);
      assert Run(Idle, t) == Run(s1, t[1..]);
    } else {
      var on := Idle.(drw := true);
      assert t == [DrwEnable, DrwDisable];
      assert Run(on, [DrwDisable]) == Run(Idle, []);
      assert Run(Idle, t) == Run(on, [DrwDisable]);
    }
  }

  /** The teardown is balanced once the companion context exists. */
  lemma TeardownBalanced(gl: GlContext?, gwn: GwnContext?)
    requires gl != null ==> gwn != null
    ensures Balanced(TeardownCalls(gl, gwn))
  {
    var t := TeardownCalls(gl, gwn);
    if gl != null {
      var s1 := Idle.(gl := gl);
      var s2 := s1.(gwn := gwn);
      var end := [GlDispose(gl)];
      assert Run(Idle, end) == Run(Idle, []);
      assert Run(s1, [GlDisable(gl)] + end) == Run(Idle, end);
      var discard := [GwnDiscard(gwn), GlDisable(gl)] + end;
      assert Run(s2, discard) == Run(s1, discard[1..]);
      var again := [GwnEnable(gwn)] + discard;
      assert Run(s1, again) == Run(s2, discard);
      var leave := [GwnDisable(gwn)] + again;
      assert Run(s2, leave) == Run(s1, again);
      assert t == [GlEnable(gl), GwnEnable(gwn)] + leave;
      assert Run(s1, t[1..]) == Run(s2, leave);
      assert Run(Idle, t) == Run(s1, t[1..]);
    } else {
      var on := Idle.(drw := true);
      assert t == [DrwEnable, DrwDisable];
      assert Run(on, [DrwDisable]) == Run(Idle, []);
      assert Run(Idle, t) == Run(on, [DrwDisable]);
    }
  }

  /** Without the companion context the teardown misuses it. */
  lemma TeardownNeedsCompanion(gl: GlContext)
    ensures Run(Idle, TeardownCalls(gl, null)) == None
  {
    var t := TeardownCalls(gl, null);
    assert t[1..][0] == GwnEnable(null);
  }

  /** Entering the same context twice in a row is a misuse. */
  lemma DoubleEnableRejected(gl: GlContext?, gwn: GwnContext?)
    requires gl != null ==> gwn != null
    ensures Run(Idle, EnableCalls(gl, gwn) + EnableCalls(gl, gwn)) == None
  {
    var t := EnableCalls(gl, gwn) + EnableCalls(gl, gwn);
    if gl != null {
      var both := ContextState(false, gl, gwn);
      assert t == [GlEnable(gl), GwnEnable(gwn), GlEnable(gl), GwnEnable(gwn)];
      assert Run(both, t[2..]) == None;
      assert Run(Idle.(gl := gl), t[1..]) == Run(both, t[2..]);
    } else {
      assert t == [DrwEnable, DrwEnable];
      assert t[1..][0] == DrwEnable;
    }
  }

  /** The switches of a whole bake job: enable and disable around resource
      creation, then the rest of the job. */
  function JobCalls(gl: GlContext?, gwn: GwnContext?, worldPass: bool): seq<ContextCall>
  {
    EnableCalls(gl, gwn) + DisableCalls(gl, gwn) + TailCalls(gl, gwn, worldPass)
  }

  /** The switches after the gather scan: enable and disable around the
      world pass when it runs, then teardown. */
  function TailCalls(gl: GlContext?, gwn: GwnContext?, worldPass: bool): seq<ContextCall>
  {
    WorldCalls(gl, gwn, worldPass) + TeardownCalls(gl, gwn)
  }

  /** The switches of the world pass: one enable and disable when it runs. */
  function WorldCalls(gl: GlContext?, gwn: GwnContext?, worldPass: bool): seq<ContextCall>
  {
    if worldPass then EnableCalls(gl, gwn) + DisableCalls(gl, gwn) else []
  }

  /** The job's switches issued one part after another make up JobCalls. */
  lemma JobCallsInOrder(before: seq<ContextCall>, gl: GlContext?, gwn: GwnContext?, worldPass: bool)
    ensures before + EnableCalls(gl, gwn) + DisableCalls(gl, gwn) + WorldCalls(gl, gwn, worldPass)
              + TeardownCalls(gl, gwn)
            == before + JobCalls(gl, gwn, worldPass)
    ensures (before + JobCalls(gl, gwn, worldPass))[|before|..] == JobCalls(gl, gwn, worldPass)
  {
  }

  /** A bake job pairs every enable with a disable, ends with nothing
      current and touches only the contexts of its mode. */
  lemma JobCallsBalanced(gl: GlContext?, gwn: GwnContext?, worldPass: bool)
    requires gl != null ==> gwn != null
    ensures Balanced(JobCalls(gl, gwn, worldPass))
    ensures UsesOnlyOwnContext(JobCalls(gl, gwn, worldPass), gl)
  {
    var bracket := EnableCalls(gl, gwn) + DisableCalls(gl, gwn);
    var world := WorldCalls(gl, gwn, worldPass);
    BracketBalanced(gl, gwn);
    TeardownBalanced(gl, gwn);
    assert Balanced(world) by {
      if !worldPass {
        assert Run(Idle, []) == Some(Idle);
      }
    }
    BalancedAppend(bracket, world);
    BalancedAppend(bracket + world, TeardownCalls(gl, gwn));
    assert JobCalls(gl, gwn, worldPass) == bracket + world + TeardownCalls(gl, gwn);
  }
}
