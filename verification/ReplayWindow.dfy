/** The windows in which a replay folds the log, so that it holds the state's lock for only one of them at a time. */
module ReplayWindow {
  const REPLAY_FOLD_WINDOW := 128

  function WindowEnd(start: nat, total: nat): (end: nat)
    requires start < total
    ensures start < end <= total
  {
    if start + REPLAY_FOLD_WINDOW > total then total else start + REPLAY_FOLD_WINDOW
  }
}
