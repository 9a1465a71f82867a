/** The referential check run on a recovered state (internal/recovery/check.go). */
module Integrity {
  import opened Domain
  import opened Projection
  import opened Lifecycle

  predicate Related(s: State, t: Task) {
    t.releaseId != "" && t.deviceId != "" && t.releaseId in s.releases
  }

  method Check(s: State) returns (ok: bool)
    ensures ok <==> forall k :: k in s.tasks ==>
      s.tasks[k].releaseId != "" && s.tasks[k].deviceId != "" && s.tasks[k].releaseId in s.releases
  {
    var left := s.tasks.Keys;
    while left != {}
      invariant left <= s.tasks.Keys && forall k :: k in s.tasks.Keys - left ==> Related(s, s.tasks[k])
    {
      var k :| k in left;
      var t := s.tasks[k];
      if t.releaseId == "" || t.deviceId == "" { return false; }
      if t.releaseId !in s.releases { return false; }
      left := left - {k};
    }
    return true;
  }

  /**
    On the state of any valid log the check can only fail for an empty device name, which CreateRelease does not refuse:
    it passes exactly when no release was created for one.
   */
  lemma CheckPassesExactly(log: seq<Event>)
    requires ValidLog(log)
    ensures var s := Replay(log);
      (forall k :: k in s.tasks ==> Related(s, s.tasks[k])) <==>
        (forall k :: k in s.tasks ==> s.tasks[k].deviceId != "")
  {
    ValidLogCoherent(log, LastTime(log));
    hide ValidLog, Replay, ReleaseSound, TaskSound;
  }
}
