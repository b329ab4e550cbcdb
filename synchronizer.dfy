/**
 * The repository synchronizer: forces a checkout onto a branch through a
 * fixed series of safe git commands, whose failures are absorbed.
 */
module Synchronizer {
  import opened Shell

  /**
   * The world after synchronizing dir onto branch: clean, hard reset, plain
   * checkout, a forced checkout only when the plain one failed, and a pull.
   * Only the plain checkout's reply is ever looked at.
   */
  function Sync(o: Oracle, w: World, dir: Path, branch: string): (w': World)
  {
    var w1 := w.Issue(GitClean(dir));
    var w2 := w1.Issue(GitResetHard(dir));
    var checkedOut := o(w2, GitCheckout(dir, branch)).ok;
    var w3 := w2.Issue(GitCheckout(dir, branch));
    var w4 := if checkedOut then w3 else w3.Issue(GitForceCheckout(dir, branch));
    w4.Issue(GitPull(dir, branch))
  }

  /** Whether the plain checkout issued by Sync(o, w, dir, branch) succeeds. */
  function CheckoutSucceeds(o: Oracle, w: World, dir: Path, branch: string): (ok: bool)
  {
    o(World(w.dirs, w.trace + [GitClean(dir), GitResetHard(dir)]), GitCheckout(dir, branch)).ok
  }

  /** The commands Sync issues, given whether the plain checkout succeeds. */
  function SyncCommands(checkedOut: bool, dir: Path, branch: string): (cs: seq<Command>)
  {
    [GitClean(dir), GitResetHard(dir), GitCheckout(dir, branch)]
    + (if checkedOut then [] else [GitForceCheckout(dir, branch)])
    + [GitPull(dir, branch)]
  }

  /**
   * The commands Sync issues, in order: clean, reset, checkout, the forced
   * checkout exactly when the plain checkout failed, and always the pull last.
   * No directory is created or removed.
   */
  lemma SyncTrace(o: Oracle, w: World, dir: Path, branch: string)
    ensures Sync(o, w, dir, branch) == World(w.dirs, w.trace + SyncCommands(CheckoutSucceeds(o, w, dir, branch), dir, branch))
  {
    assert w.trace + [GitClean(dir)] + [GitResetHard(dir)] == w.trace + [GitClean(dir), GitResetHard(dir)];
  }

  /**
   * In the synchronizer's commands the forced checkout appears if and only if
   * the plain checkout failed, the pull is always last, all of them run
   * inside dir, and none is a fetch, an install, a build or a clone.
   */
  lemma SyncCommandsShape(checkedOut: bool, dir: Path, branch: string)
    ensures var cs := SyncCommands(checkedOut, dir, branch);
      && (GitForceCheckout(dir, branch) in cs <==> !checkedOut)
      && |cs| == (if checkedOut then 4 else 5)
      && cs[|cs| - 1] == GitPull(dir, branch)
      && InDir(cs, dir)
      && forall c :: c in cs ==> c.GitClean? || c.GitResetHard? || c.GitCheckout? || c.GitForceCheckout? || c.GitPull?
  {
  }

  /**
   * Failures of the clean, the reset and the pull are absorbed: two oracles
   * that agree on the plain checkout give the same synchronization.
   */
  lemma SyncIgnoresOtherReplies(o1: Oracle, o2: Oracle, w: World, dir: Path, branch: string)
    requires CheckoutSucceeds(o1, w, dir, branch) == CheckoutSucceeds(o2, w, dir, branch)
    ensures Sync(o1, w, dir, branch) == Sync(o2, w, dir, branch)
  {
    SyncTrace(o1, w, dir, branch);
    SyncTrace(o2, w, dir, branch);
  }
}
