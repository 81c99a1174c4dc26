/**
 * Nested pause/resume of iMuse output and the sound-player lock.
 *
 * `ImPause` and `ImResume` keep a nesting counter; only the outermost pause
 * and the matching last resume reach the MIDI and digital-sound primitives,
 * which do nothing but set flags. The lock is a plain counter that an unlock
 * never takes below zero. Every primitive returns the success code, so the
 * counter is what `ImPause` and `ImResume` return.
 */
module ImusePause {

  datatype PauseState = PauseState(
    imPause: nat,
    midiPaused: int,
    digitalPause: int,
    sndPlayerLock: nat)

  /** The state before any call: nothing paused, lock released. */
  const Initial: PauseState := PauseState(0, 0, 0, 0)

  function SoundPlayerLock(st: PauseState): (t: PauseState)
    ensures t.sndPlayerLock == st.sndPlayerLock + 1
    ensures t.(sndPlayerLock := st.sndPlayerLock) == st
  {
    st.(sndPlayerLock := st.sndPlayerLock + 1)
  }

  /** Decrements the lock unless it is already released. */
  function SoundPlayerUnlock(st: PauseState): (t: PauseState)
    ensures st.sndPlayerLock == 0 ==> t == st
    ensures st.sndPlayerLock > 0 ==> t.sndPlayerLock + 1 == st.sndPlayerLock
    ensures t.(sndPlayerLock := st.sndPlayerLock) == st
  {
    if st.sndPlayerLock != 0 then st.(sndPlayerLock := st.sndPlayerLock - 1) else st
  }

  function PauseMidi(st: PauseState): (t: PauseState)
    ensures t.midiPaused == 1 && t.(midiPaused := st.midiPaused) == st
  {
    st.(midiPaused := 1)
  }

  function ResumeMidi(st: PauseState): (t: PauseState)
    ensures t.midiPaused == 0 && t.(midiPaused := st.midiPaused) == st
  {
    st.(midiPaused := 0)
  }

  /** Sets the digital flag while holding the lock; the lock ends where it began. */
  function PauseDigitalSound(st: PauseState): (t: PauseState)
    ensures t.digitalPause == 1 && t.(digitalPause := st.digitalPause) == st
  {
    SoundPlayerUnlock(SoundPlayerLock(st).(digitalPause := 1))
  }

  function ResumeDigitalSound(st: PauseState): (t: PauseState)
    ensures t.digitalPause == 0 && t.(digitalPause := st.digitalPause) == st
  {
    SoundPlayerUnlock(SoundPlayerLock(st).(digitalPause := 0))
  }

  /** `ImPause`: returns the new state and the new nesting count. */
  function Pause(st: PauseState): (r: (PauseState, nat))
    ensures r.0.imPause == st.imPause + 1 && r.1 == r.0.imPause
    ensures st.imPause == 0 ==> r.0.midiPaused == 1 && r.0.digitalPause == 1
    ensures st.imPause != 0 ==> r.0.midiPaused == st.midiPaused && r.0.digitalPause == st.digitalPause
    ensures r.0.sndPlayerLock == st.sndPlayerLock
  {
    var paused := if st.imPause == 0 then PauseDigitalSound(PauseMidi(st)) else st;
    var t := paused.(imPause := paused.imPause + 1);
    (t, t.imPause)
  }

  /** `ImResume`: returns the new state and the new nesting count. */
  function Resume(st: PauseState): (r: (PauseState, nat))
    ensures st.imPause == 0 ==> r.0 == st
    ensures st.imPause > 0 ==> r.0.imPause + 1 == st.imPause
    ensures r.1 == r.0.imPause
    ensures st.imPause == 1 ==> r.0.midiPaused == 0 && r.0.digitalPause == 0
    ensures st.imPause != 1 ==> r.0.midiPaused == st.midiPaused && r.0.digitalPause == st.digitalPause
    ensures r.0.sndPlayerLock == st.sndPlayerLock
  {
    var resumed := if st.imPause == 1 then ResumeDigitalSound(ResumeMidi(st)) else st;
    var t := if resumed.imPause != 0 then resumed.(imPause := resumed.imPause - 1) else resumed;
    (t, t.imPause)
  }

  /** Output is suspended exactly while the nesting count is positive. */
  predicate Consistent(st: PauseState) {
    && (st.imPause == 0 ==> st.midiPaused == 0 && st.digitalPause == 0)
    && (st.imPause > 0 ==> st.midiPaused == 1 && st.digitalPause == 1)
  }

  lemma PausePreservesConsistent(st: PauseState)
    requires Consistent(st)
    ensures Consistent(Pause(st).0)
  {
  }

  lemma ResumePreservesConsistent(st: PauseState)
    requires Consistent(st)
    ensures Consistent(Resume(st).0)
  {
  }

  /** A resume undoes the pause just before it. */
  lemma ResumeUndoesPause(st: PauseState)
    requires Consistent(st)
    ensures Resume(Pause(st).0).0 == st
  {
  }

  /** A lock followed by an unlock leaves the state as it was. */
  lemma UnlockUndoesLock(st: PauseState)
    ensures SoundPlayerUnlock(SoundPlayerLock(st)) == st
  {
  }

  function PauseTimes(st: PauseState, n: nat): PauseState
    decreases n
  {
    if n == 0 then st else Pause(PauseTimes(st, n - 1)).0
  }

  function ResumeTimes(st: PauseState, n: nat): PauseState
    decreases n
  {
    if n == 0 then st else ResumeTimes(Resume(st).0, n - 1)
  }

  lemma {:induction false} PauseTimesConsistent(st: PauseState, n: nat)
    requires Consistent(st)
    ensures Consistent(PauseTimes(st, n))
    ensures PauseTimes(st, n).imPause == st.imPause + n
  {
    if n > 0 {
      PauseTimesConsistent(st, n - 1);
    }
  }

  /** Pauses nest: n pauses followed by n resumes restore the original state. */
  lemma {:induction false} NestedPauseResume(st: PauseState, n: nat)
    requires Consistent(st)
    ensures ResumeTimes(PauseTimes(st, n), n) == st
  {
    if n > 0 {
      var inner := PauseTimes(st, n - 1);
      PauseTimesConsistent(st, n - 1);
      ResumeUndoesPause(inner);
      assert Resume(PauseTimes(st, n)).0 == inner;
      NestedPauseResume(st, n - 1);
    }
  }

  /** Two pauses and one resume leave MIDI paused; the second resume releases it. */
  lemma TwoPausesOneResume()
    ensures ResumeTimes(PauseTimes(Initial, 2), 1).midiPaused == 1
    ensures ResumeTimes(PauseTimes(Initial, 2), 1).imPause == 1
    ensures ResumeTimes(PauseTimes(Initial, 2), 2).midiPaused == 0
    ensures ResumeTimes(PauseTimes(Initial, 2), 2) == Initial
  {
    NestedPauseResume(Initial, 2);
  }

  /** Resuming more often than pausing never takes the count below zero or touches the flags. */
  lemma {:induction false} ExtraResumesAreHarmless(st: PauseState, n: nat)
    requires st.imPause == 0
    ensures ResumeTimes(st, n) == st
  {
    if n > 0 {
      ExtraResumesAreHarmless(Resume(st).0, n - 1);
    }
  }
}
