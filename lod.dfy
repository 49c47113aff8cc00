/** The level-of-detail rule of `updateFPS`: once a second the frames counted
    since the last sample become the frame rate, and a slow frame rate drops
    the detail to low while a fast one restores high. The clock reading
    `performance.now()` is the parameter `now`, in milliseconds. */
module LevelOfDetail {

  datatype Level = High | Medium | Low

  /** The frame-rate monitor: frames counted since the last sample, the time
      of that sample, the last measured rate and the current level. */
  datatype Monitor = Monitor(frameCount: nat, lastUpdate: real, fps: nat, level: Level)

  /** Milliseconds between samples. */
  const SampleInterval: real := 1000.0
  /** Below this rate the detail drops to low. */
  const SlowFps: nat := 30
  /** Above this rate low detail is raised back to high. */
  const FastFps: nat := 55

  /** The monitor the page starts with: `lastFPSUpdate` is the load time. */
  function Start(now: real): Monitor {
    Monitor(0, now, 60, High)
  }

  predicate Due(m: Monitor, now: real) {
    now - m.lastUpdate >= SampleInterval
  }

  /** The level after a sample measuring `fps`, and whether the geometry is
      rebuilt, branch by branch as `updateFPS` decides. */
  function Switch(fps: nat, level: Level): (Level, bool) {
    if fps < SlowFps && level != Low then (Low, true)
    else if fps > FastFps && level == Low then (High, true)
    else (level, false)
  }

  /** One call of `updateFPS` at time `now`: the new monitor and whether the
      geometry is rebuilt. */
  function Sample(m: Monitor, now: real): (Monitor, bool) {
    if Due(m, now) then
      var fps := m.frameCount;
      var (level, rebuild) := Switch(fps, m.level);
      // the count restarts at 0 and this call then counts one frame
      (Monitor(1, now, fps, level), rebuild)
    else
      (m.(frameCount := m.frameCount + 1), false)
  }

  /** The level is decided by the measured rate alone except in the band
      between the two thresholds, where it keeps its previous value: slow
      means low, fast means high once low, and the geometry is rebuilt exactly
      when the level changes. */
  lemma SwitchRule(fps: nat, level: Level)
    ensures Switch(fps, level).0 ==
      (if fps < SlowFps then Low else if fps > FastFps && level == Low then High else level)
    ensures Switch(fps, level).1 <==> Switch(fps, level).0 != level
    ensures SlowFps <= fps <= FastFps ==> Switch(fps, level) == (level, false)
  {
  }

  /** The counting: a sample takes the frames counted so far as the rate,
      records the time and restarts the count, which the call itself then
      bumps to 1; between samples the call only counts a frame. */
  lemma SampleCounts(m: Monitor, now: real)
    ensures var (r, rebuild) := Sample(m, now);
      if Due(m, now) then
        r.frameCount == 1 && r.lastUpdate == now && r.fps == m.frameCount && r.level == Switch(m.frameCount, m.level).0
      else
        r == m.(frameCount := m.frameCount + 1) && !rebuild
  {
  }

  /** The geometry is rebuilt exactly when the level changes. */
  lemma RebuildIffChanged(m: Monitor, now: real)
    ensures Sample(m, now).1 <==> Sample(m, now).0.level != m.level
  {
    SwitchRule(m.frameCount, m.level);
  }

  /** Calls of `updateFPS` at the given times, in order. */
  function Samples(m: Monitor, times: seq<real>): Monitor
    decreases |times|
  {
    if |times| == 0 then m else Samples(Sample(m, times[0]).0, times[1..])
  }

  /** Medium detail is never chosen: a monitor that is not at medium never
      gets there, however the frame rate behaves. */
  lemma {:induction false} NeverMedium(m: Monitor, times: seq<real>)
    requires m.level != Medium
    ensures Samples(m, times).level != Medium
    decreases |times|
  {
    if |times| > 0 {
      var next := Sample(m, times[0]).0;
      assert next.level != Medium;
      NeverMedium(next, times[1..]);
    }
  }

  /** From the start every reachable level is high or low. */
  lemma FromStart(start: real, times: seq<real>)
    ensures Samples(Start(start), times).level in {High, Low}
  {
    NeverMedium(Start(start), times);
  }
}
