// Recording and replaying, end to end.

module Session {
  import opened Words
  import opened Format
  import opened Calls
  import opened Replay
  import opened Traces
  import opened Meaning
  import opened Recorder
  import opened Replayer

  // A process is traced to its exit, and the file it leaves is replayed: every call is
  // reported, in order, with what it said.
  method RecordThenReplay(issues: seq<Issue>, exec: bool, w: WordSize) returns (log: Option<seq<Entry>>, stop: Stop)
    requires RunOk(issues, GL_INITIAL, w) && AllReadBack(issues, exec)
    ensures log == Some(SeenRun(issues, GL_INITIAL, w)) && stop == EndOfTrace
    ensures RunMeant(issues, GL_INITIAL, log.value, w)
  {
    WholeTrace(issues, exec, w);
    SeenRunMeant(issues, GL_INITIAL, w);
    hide *;
    var file := RecordTrace(issues, w);
    log, stop := ReplayTrace(file, exec);
  }
}
