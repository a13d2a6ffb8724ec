/** The MP3 player (plugins/music_player.py): a clamped volume and the
 *  `is_playing` flag that guards playback. The playback thread and the pygame
 *  mixer are outside the model; what the thread does to `is_playing` is
 *  offered as two methods of its own. */
module Music {
  import opened Common

  const MinVolume: real := 0.0
  const MaxVolume: real := 1.0
  const DefaultVolume: real := 0.7

  /** `_validate_volume`: a number (a bool is an int in Python) is clamped to
   *  [0, 1]; anything else raises `ValueError`, here `None`. */
  function ValidateVolume(v: Value): (r: Option<real>)
    ensures r.Some? <==> v.Number? || v.Flag?
    ensures r.Some? ==> MinVolume <= r.value <= MaxVolume
    ensures r.Some? && MinVolume <= v.NumberOr(0.0) <= MaxVolume ==> r.value == v.NumberOr(0.0)
    ensures r.Some? && v.NumberOr(0.0) < MinVolume ==> r.value == MinVolume
    ensures r.Some? && MaxVolume < v.NumberOr(0.0) ==> r.value == MaxVolume
  {
    if v.Number? || v.Flag? then
      var x := v.NumberOr(0.0);
      Some(if x < MinVolume then MinVolume else if x > MaxVolume then MaxVolume else x)
    else None
  }

  /** Clamping twice is clamping once. */
  lemma ValidateIdempotent(v: Value)
    requires ValidateVolume(v).Some?
    ensures ValidateVolume(Number(ValidateVolume(v).value)) == ValidateVolume(v)
  {
  }

  class MP3Player {
    const filePath: string
    var isPlaying: bool
    var volume: real
    /** How many playback threads `play` has started. */
    var threadsStarted: nat

    /** The stored volume is always a clamped one. */
    ghost predicate Valid()
      reads this
    {
      MinVolume <= volume <= MaxVolume
    }

    /** The part of `MP3Player(file_path, volume)` that succeeds: `volume` has
     *  already been validated, and the file exists. */
    constructor (filePath: string, validVolume: real)
      requires MinVolume <= validVolume <= MaxVolume
      ensures this.filePath == filePath && volume == validVolume
      ensures !isPlaying && threadsStarted == 0 && Valid()
    {
      this.filePath := filePath;
      isPlaying := false;
      volume := validVolume;
      threadsStarted := 0;
    }

    /** `MP3Player(file_path, volume)`: raises on a volume that is not a
     *  number, on a file that does not exist, and when the mixer fails to
     *  initialise (`mixerRaises`); each of these is `None` here. Otherwise
     *  the player holds the clamped volume and is not playing. */
    static method Open(filePath: string, v: Value, fileExists: bool, mixerRaises: bool) returns (p: Option<MP3Player>)
      ensures p.Some? <==> ValidateVolume(v).Some? && fileExists && !mixerRaises
      ensures p.Some? ==> fresh(p.value) && p.value.filePath == filePath
      ensures p.Some? ==> p.value.volume == ValidateVolume(v).value && !p.value.isPlaying && p.value.Valid()
    {
      var validated := ValidateVolume(v);
      if validated.None? || !fileExists {
        return None;
      }
      if mixerRaises {
        return None;
      }
      var player := new MP3Player(filePath, validated.value);
      return Some(player);
    }

    /** `set_volume`: a number is clamped and stored; anything else is
     *  refused and the volume kept. The volume is stored before it is handed
     *  to the mixer, so a mixer error (`mixerRaises`) fails the call with the
     *  new volume already in place. */
    method SetVolume(v: Value, mixerRaises: bool) returns (ok: bool)
      modifies this
      requires Valid()
      ensures ok <==> ValidateVolume(v).Some? && !mixerRaises
      ensures volume == ValidateVolume(v).GetOr(old(volume))
      ensures isPlaying == old(isPlaying) && threadsStarted == old(threadsStarted) && Valid()
    {
      var validated := ValidateVolume(v);
      if validated.None? {
        return false;
      }
      volume := validated.value;
      return !mixerRaises;
    }

    /** `get_volume`. */
    method GetVolume() returns (v: real)
      ensures v == volume
    {
      return volume;
    }

    /** `play`: refused while playing or when the file has gone; otherwise a
     *  playback thread is started. `is_playing` is set by that thread, not
     *  here. */
    method Play(fileExists: bool) returns (ok: bool)
      modifies this
      ensures ok <==> !old(isPlaying) && fileExists
      ensures threadsStarted == old(threadsStarted) + (if ok then 1 else 0)
      ensures isPlaying == old(isPlaying) && volume == old(volume)
    {
      if isPlaying {
        return false;
      }
      if !fileExists {
        return false;
      }
      threadsStarted := threadsStarted + 1;
      return true;
    }

    /** What the playback thread does once its mixer is up. */
    method PlaybackStarted()
      modifies this
      ensures isPlaying && volume == old(volume) && threadsStarted == old(threadsStarted)
    {
      isPlaying := true;
    }

    /** What the playback thread does last, however playback ended. */
    method PlaybackFinished()
      modifies this
      ensures !isPlaying && volume == old(volume) && threadsStarted == old(threadsStarted)
    {
      isPlaying := false;
    }

    /** `stop`: only a playing player is stopped; a mixer error (`mixerRaises`)
     *  is caught before the flag is cleared and reported as failure. */
    method Stop(mixerRaises: bool) returns (ok: bool)
      modifies this
      ensures ok <==> old(isPlaying) && !mixerRaises
      ensures isPlaying == (old(isPlaying) && mixerRaises)
      ensures volume == old(volume) && threadsStarted == old(threadsStarted)
    {
      if isPlaying {
        if mixerRaises {
          return false;
        }
        isPlaying := false;
        return true;
      }
      return false;
    }

    /** `pause`: succeeds only while playing and the mixer does not raise;
     *  the flag stays as it was. */
    method Pause(mixerRaises: bool) returns (ok: bool)
      ensures ok <==> isPlaying && !mixerRaises
    {
      if isPlaying {
        return !mixerRaises;
      }
      return false;
    }

    /** `unpause`: the mixer is asked to resume whatever the state, and only a
     *  mixer error makes it fail. */
    method Unpause(mixerRaises: bool) returns (ok: bool)
      ensures ok <==> !mixerRaises
    {
      return !mixerRaises;
    }

    /** `is_playing_audio`, given whether the mixer is busy. */
    method IsPlayingAudio(mixerBusy: bool) returns (playing: bool)
      ensures playing == (isPlaying && mixerBusy)
    {
      return isPlaying && mixerBusy;
    }

    /** `cleanup`: a playing player is stopped; an error inside is swallowed. */
    method Cleanup(mixerRaises: bool)
      modifies this
      ensures isPlaying == (old(isPlaying) && mixerRaises)
      ensures volume == old(volume) && threadsStarted == old(threadsStarted)
    {
      if isPlaying {
        var _ := Stop(mixerRaises);
      }
    }
  }
}
