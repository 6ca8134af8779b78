/** The audio player component as an object: its four pieces of React state
    are fields that its handlers update, and the audio element is an object
    of its own that receives commands. Every method is proved to move the
    abstract state exactly as the matching function of PlayerSpec does. */
module Player {

  import S = PlayerSpec

  /** The browser's audio element, reduced to what the player drives: its
      source, its playhead and the commands it has been given. */
  class MediaHandle {
    var src: string
    var position: int
    ghost var trace: seq<S.Command>

    constructor ()
      ensures src == "" && position == 0 && trace == []
    {
      src, position := "", 0;
      trace := [];
    }

    /** `audio.src = url` */
    method Load(url: string)
      modifies this
      ensures src == url && position == old(position)
      ensures trace == old(trace) + [S.Load(url)]
    {
      src := url;
      trace := trace + [S.Load(url)];
    }

    /** `audio.play()` */
    method Play()
      modifies this
      ensures src == old(src) && position == old(position)
      ensures trace == old(trace) + [S.Play]
    {
      trace := trace + [S.Play];
    }

    /** `audio.pause()` */
    method Pause()
      modifies this
      ensures src == old(src) && position == old(position)
      ensures trace == old(trace) + [S.Pause]
    {
      trace := trace + [S.Pause];
    }

    /** `audio.currentTime = t`, given by the player. */
    method SetPosition(t: int)
      modifies this
      ensures position == t && src == old(src) && trace == old(trace)
    {
      position := t;
    }

    /** The element's own movement of its playhead to `p`, by playback or by
        clamping a seek, as it reports it with a `timeupdate` event. */
    method ReportPlayhead(p: nat)
      modifies this
      ensures position == p && src == old(src) && trace == old(trace)
    {
      position := p;
    }
  }

  class AudioPlayer {
    const playlist: seq<S.Track>
    const audio: MediaHandle
    var currentTrack: nat
    var isPlaying: bool
    var currentTime: nat
    var showTrackList: bool
    /** The `currentTrack` value that the `[currentTrack]` effect last ran
        with, which React keeps to decide whether to run it again. */
    var effectTrack: nat

    ghost function State(): S.PlayerState
      reads this, audio
    {
      S.PlayerState(currentTrack, isPlaying, currentTime, showTrackList,
                    effectTrack, audio.src, audio.position, audio.trace)
    }

    ghost predicate Valid()
      reads this, audio
    {
      S.Inv(playlist, State())
    }

    /** Mounting: the initial state, then the first run of the effect. */
    constructor (playlist: seq<S.Track>)
      requires |playlist| >= 1
      ensures this.playlist == playlist && fresh(audio)
      ensures Valid() && State() == S.Initial(playlist)
    {
      this.playlist := playlist;
      audio := new MediaHandle();
      isPlaying, currentTrack, currentTime, showTrackList := false, 0, 0, false;
      effectTrack := 0;
      new;
      audio.Load(playlist[0].url);
    }

    method TogglePlay()
      requires Valid()
      modifies this, audio
      ensures Valid() && State() == S.TogglePlay(old(State()))
    {
      if isPlaying {
        audio.Pause();
      } else {
        audio.Play();
      }
      isPlaying := !isPlaying;
    }

    method NextTrack()
      requires Valid()
      modifies this
      ensures Valid() && State() == S.NextTrack(playlist, old(State()))
    {
      currentTrack := (currentTrack + 1) % |playlist|;
      isPlaying := false;
    }

    method PrevTrack()
      requires Valid()
      modifies this
      ensures Valid() && State() == S.PrevTrack(playlist, old(State()))
    {
      currentTrack := (currentTrack - 1 + |playlist|) % |playlist|;
      isPlaying := false;
    }

    /** The click handler of list entry `k`; the list only has entries
        `0 <= k < |playlist|`. */
    method SelectTrack(k: nat)
      requires Valid() && k < |playlist|
      modifies this
      ensures Valid() && State() == S.SelectTrack(old(State()), k)
    {
      currentTrack := k;
    }

    method ToggleTrackList()
      requires Valid()
      modifies this
      ensures Valid() && State() == S.ToggleTrackList(old(State()))
    {
      showTrackList := !showTrackList;
    }

    method HandleSeek(t: nat)
      requires Valid()
      modifies this, audio
      ensures Valid() && State() == S.HandleSeek(old(State()), t)
    {
      audio.SetPosition(t);
      currentTime := t;
    }

    method SeekForward()
      requires Valid()
      modifies audio
      ensures Valid() && State() == S.SeekForward(old(State()))
    {
      audio.SetPosition(audio.position + 10);
    }

    method SeekBackward()
      requires Valid()
      modifies audio
      ensures Valid() && State() == S.SeekBackward(old(State()))
    {
      audio.SetPosition(audio.position - 10);
    }

    /** A `timeupdate` event with the element's playhead at `p`. */
    method HandleTimeUpdate(p: nat)
      requires Valid()
      modifies this, audio
      ensures Valid() && State() == S.HandleTimeUpdate(old(State()), p)
    {
      audio.ReportPlayhead(p);
      currentTime := audio.position;
    }

    /** The `ended` listener. */
    method HandleEnded()
      requires Valid()
      modifies this, audio
      ensures Valid() && State() == S.HandleEnded(playlist, old(State()))
    {
      NextTrack();
      audio.Play();
    }

    /** The `[currentTrack]` effect, run by React after a render. */
    method OnTrackChanged()
      requires Valid()
      modifies this, audio
      ensures Valid() && State() == S.OnTrackChanged(playlist, old(State()))
    {
      if currentTrack != effectTrack {
        audio.Load(playlist[currentTrack].url);
        if isPlaying {
          audio.Play();
        }
        effectTrack := currentTrack;
      }
    }
  }

  /** A client of the class: three tracks, play, then the first track ends.
      The player ends up on the second track, paused. */
  method AutoAdvanceClient(a: S.Track, b: S.Track, c: S.Track) {
    var player := new AudioPlayer([a, b, c]);
    player.TogglePlay();
    player.OnTrackChanged();
    player.HandleEnded();
    player.OnTrackChanged();
    assert player.currentTrack == 1 && !player.isPlaying;
    assert player.audio.trace == [S.Load(a.url), S.Play, S.Play, S.Load(b.url)];
  }
}
