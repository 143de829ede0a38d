/** A keyed watermark that rises and may be forgotten, and the log of its changes. */
module Watermarks {

  /** `task` is the one on whose behalf the watermark rose. */
  datatype Mark = Rise(key: string, rev: int, task: int) | Forget(key: string)

  /** Between two rises of one key that do not increase, the key was forgotten. */
  ghost predicate Increasing(log: seq<Mark>) {
    forall i, j | 0 <= i < j < |log| && log[i].Rise? && log[j].Rise? && log[i].key == log[j].key &&
                  log[i].rev >= log[j].rev ::
      ForgottenBetween(log, log[i].key, i, j)
  }

  ghost predicate ForgottenBetween(log: seq<Mark>, key: string, i: int, j: int) {
    exists e :: i < e < j && e < |log| && 0 <= e && log[e] == Forget(key)
  }

  /** A rise that was not forgotten since is covered by the current watermark. */
  ghost predicate Covered(log: seq<Mark>, marks: map<string, int>) {
    forall i | 0 <= i < |log| && log[i].Rise? && !ForgottenBetween(log, log[i].key, i, |log|) ::
      log[i].key in marks && log[i].rev <= marks[log[i].key]
  }

  /** The key's last event is its rise to that revision. */
  ghost predicate LastRoseTo(log: seq<Mark>, key: string, rev: int) {
    exists i :: 0 <= i < |log| && log[i].Rise? && log[i].key == key && log[i].rev == rev &&
                forall e | i < e < |log| :: log[e].key != key
  }

  ghost predicate Attained(log: seq<Mark>, marks: map<string, int>) {
    forall k | k in marks :: LastRoseTo(log, k, marks[k])
  }

  ghost predicate Faithful(log: seq<Mark>, marks: map<string, int>) {
    Increasing(log) && Covered(log, marks) && Attained(log, marks)
  }

  lemma RisesIncrease(log: seq<Mark>, marks: map<string, int>, i: int, j: int)
    requires Faithful(log, marks)
    requires 0 <= i < j < |log| && log[i].Rise? && log[j].Rise? && log[i].key == log[j].key
    requires forall e | i < e < j :: log[e] != Forget(log[i].key)
    ensures log[i].rev < log[j].rev
  {}

  lemma LastRiseIsMark(log: seq<Mark>, marks: map<string, int>, j: int)
    requires Faithful(log, marks) && 0 <= j < |log| && log[j].Rise?
    requires forall e | j < e < |log| :: log[e].key != log[j].key
    ensures log[j].key in marks && marks[log[j].key] == log[j].rev
  {
    assert !ForgottenBetween(log, log[j].key, j, |log|);
  }

  lemma StillForgotten(log: seq<Mark>, mark: Mark, key: string, i: int)
    ensures ForgottenBetween(log, key, i, |log|) ==> ForgottenBetween(log + [mark], key, i, |log| + 1)
  {
    if ForgottenBetween(log, key, i, |log|) {
      var e :| i < e < |log| && 0 <= e && log[e] == Forget(key);
      assert (log + [mark])[e] == Forget(key);
    }
  }

  lemma RiseIsFaithful(log: seq<Mark>, marks: map<string, int>, key: string, rev: int, task: int)
    requires Faithful(log, marks) && (key in marks ==> rev > marks[key])
    ensures Faithful(log + [Rise(key, rev, task)], marks[key := rev])
  {
    var next := log + [Rise(key, rev, task)];
    forall i, j | 0 <= i < j < |next| && next[i].Rise? && next[j].Rise? && next[i].key == next[j].key &&
                  next[i].rev >= next[j].rev
      ensures ForgottenBetween(next, next[i].key, i, j)
    {
      assert ForgottenBetween(log, log[i].key, i, j);
      var e :| i < e < j && log[e] == Forget(log[i].key);
      assert next[e] == Forget(next[i].key);
    }
    forall i | 0 <= i < |next| && next[i].Rise? && !ForgottenBetween(next, next[i].key, i, |next|)
      ensures next[i].key in marks[key := rev] && next[i].rev <= marks[key := rev][next[i].key]
    {
      if i < |log| {
        StillForgotten(log, Rise(key, rev, task), log[i].key, i);
      }
    }
    var risen := marks[key := rev];
    forall k | k in risen
      ensures LastRoseTo(next, k, risen[k])
    {
      if k == key {
        assert next[|log|].key == k;
      } else {
        var i :| 0 <= i < |log| && log[i].Rise? && log[i].key == k && log[i].rev == marks[k] &&
                 forall e | i < e < |log| :: log[e].key != k;
        assert next[i].key == k;
      }
    }
  }

  lemma ForgetIsFaithful(log: seq<Mark>, marks: map<string, int>, key: string)
    requires Faithful(log, marks)
    ensures Faithful(log + [Forget(key)], marks - {key})
  {
    var next := log + [Forget(key)];
    forall i, j | 0 <= i < j < |next| && next[i].Rise? && next[j].Rise? && next[i].key == next[j].key &&
                  next[i].rev >= next[j].rev
      ensures ForgottenBetween(next, next[i].key, i, j)
    {
      assert ForgottenBetween(log, log[i].key, i, j);
      var e :| i < e < j && log[e] == Forget(log[i].key);
      assert next[e] == Forget(next[i].key);
    }
    forall i | 0 <= i < |next| && next[i].Rise? && !ForgottenBetween(next, next[i].key, i, |next|)
      ensures next[i].key in marks - {key} && next[i].rev <= (marks - {key})[next[i].key]
    {
      assert next[|log|] == Forget(key);
      StillForgotten(log, Forget(key), log[i].key, i);
    }
    forall k | k in marks - {key}
      ensures LastRoseTo(next, k, marks[k])
    {
      var i :| 0 <= i < |log| && log[i].Rise? && log[i].key == k && log[i].rev == marks[k] &&
               forall e | i < e < |log| :: log[e].key != k;
      assert next[i].key == k;
    }
  }
}
