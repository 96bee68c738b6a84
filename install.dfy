/** `apply_nunchaku_patches`: the once-only installer guarded by the module-level
    `_patch_applied` flag. */
module Install {

  /** What the process offers the installer: whether reading or replacing `nn.Module.__call__`
      raises (caught by the outer handler), whether the TiledDiffusion module and class are loaded,
      and whether patching that class raises (caught by the inner handler). */
  datatype InstallEnv = InstallEnv(moduleHookFails: bool, tiledLoaded: bool, tiledHookFails: bool)

  /** The flag, and how many times each call mechanism has been wrapped by this installer. */
  datatype PatchState = PatchState(patchApplied: bool, moduleCallLayers: nat, tiledCallLayers: nat)

  /** The state at import time, before the first call. */
  const Initial: PatchState := PatchState(false, 0, 0)

  /** One call of the installer. */
  function ApplyPatches(s: PatchState, env: InstallEnv): (r: PatchState)
    ensures r.moduleCallLayers == s.moduleCallLayers + (if r.patchApplied && !s.patchApplied then 1 else 0)
    ensures r.tiledCallLayers > s.tiledCallLayers ==> r.patchApplied && !s.patchApplied
    ensures r.tiledCallLayers <= s.tiledCallLayers + 1
  {
    if s.patchApplied then s
    else if env.moduleHookFails then s
    else PatchState(true, s.moduleCallLayers + 1,
                    s.tiledCallLayers + (if env.tiledLoaded && !env.tiledHookFails then 1 else 0))
  }

  /** Repeated calls, one per environment in order. */
  function ApplyAll(s: PatchState, envs: seq<InstallEnv>): PatchState
    decreases |envs|
  {
    if envs == [] then s else ApplyAll(ApplyPatches(s, envs[0]), envs[1..])
  }

  /** The flag is set exactly when `nn.Module.__call__` is wrapped, and it is wrapped once;
      TiledDiffusion is wrapped at most once and only alongside it. */
  ghost predicate Consistent(s: PatchState)
  {
    s.moduleCallLayers == (if s.patchApplied then 1 else 0) && s.tiledCallLayers <= s.moduleCallLayers
  }

  /** Once the flag is set, the installer changes nothing. */
  lemma AppliedIsFinal(s: PatchState, env: InstallEnv)
    requires s.patchApplied
    ensures ApplyPatches(s, env) == s
  {
  }

  /** The flag goes up only through a completed install; a failure before the hook leaves the
      state as it was, and a TiledDiffusion failure does not prevent the flag. */
  lemma FlagOnlyOnSuccess(s: PatchState, env: InstallEnv)
    requires !s.patchApplied
    ensures ApplyPatches(s, env).patchApplied <==> !env.moduleHookFails
    ensures env.moduleHookFails ==> ApplyPatches(s, env) == s
    ensures !env.moduleHookFails ==>
              ApplyPatches(s, env).tiledCallLayers == s.tiledCallLayers + (if env.tiledLoaded && !env.tiledHookFails then 1 else 0)
  {
  }

  /** Calling twice in the same process state equals calling once. */
  lemma ApplyPatchesIdempotent(s: PatchState, env: InstallEnv)
    ensures ApplyPatches(ApplyPatches(s, env), env) == ApplyPatches(s, env)
  {
  }

  lemma ApplyPatchesKeepsConsistent(s: PatchState, env: InstallEnv)
    requires Consistent(s)
    ensures Consistent(ApplyPatches(s, env))
  {
  }

  /** However often the installer runs, and whatever fails in between, no mechanism is ever
      wrapped twice. */
  lemma {:induction false} WrappedAtMostOnce(s: PatchState, envs: seq<InstallEnv>)
    requires Consistent(s)
    ensures Consistent(ApplyAll(s, envs))
    ensures ApplyAll(s, envs).moduleCallLayers <= 1 && ApplyAll(s, envs).tiledCallLayers <= 1
    decreases |envs|
  {
    if envs != [] {
      ApplyPatchesKeepsConsistent(s, envs[0]);
      WrappedAtMostOnce(ApplyPatches(s, envs[0]), envs[1..]);
    }
  }

  /** The process-wide installer state: `_patch_applied`, and the current hooks. */
  class Patcher {
    var patchApplied: bool
    var moduleCallLayers: nat
    var tiledCallLayers: nat

    function State(): PatchState
      reads this
    {
      PatchState(patchApplied, moduleCallLayers, tiledCallLayers)
    }

    constructor ()
      ensures State() == Initial
    {
      patchApplied, moduleCallLayers, tiledCallLayers := false, 0, 0;
    }

    /** `apply_nunchaku_patches()`: never raises; every failure is absorbed. */
    method ApplyNunchakuPatches(env: InstallEnv)
      modifies this
      ensures State() == ApplyPatches(old(State()), env)
      ensures old(Consistent(State())) ==> Consistent(State())
    {
      if patchApplied {
        return;
      }
      if env.moduleHookFails {
        return;
      }
      moduleCallLayers := moduleCallLayers + 1;
      if env.tiledLoaded && !env.tiledHookFails {
        tiledCallLayers := tiledCallLayers + 1;
      }
      patchApplied := true;
    }
  }
}
