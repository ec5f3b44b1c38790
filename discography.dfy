/** The track player of the discography section (components/Discography.tsx).
    The component state is a `Selection` (the active track id and the playing flag),
    changed only by the pure transition `ToggleTrack`. An effect reconciles one audio
    element, held in `AudioRef`, with the selection after every change; a cleanup run
    at unmount pauses and drops it. Every call the code makes on the audio element is
    appended to a log, so that the order of calls can be stated. */
module Discography {
  import opened Types

  const Tracks: seq<Track> := [
    Track("t1", "Ether State", "Void Structures", "03:42", Some("https://www.soundhelix.com/examples/mp3/SoundHelix-Song-1.mp3")),
    Track("t2", "Carbon Dust", "Void Structures", "04:15", Some("https://www.soundhelix.com/examples/mp3/SoundHelix-Song-2.mp3")),
    Track("t3", "Velvet Static", "Midnight Protocol", "03:11", Some("https://www.soundhelix.com/examples/mp3/SoundHelix-Song-3.mp3")),
    Track("t4", "Neon Ghosts", "Midnight Protocol", "04:02", Some("https://www.soundhelix.com/examples/mp3/SoundHelix-Song-4.mp3")),
    Track("t5", "Root System", "Earthen", "05:22", Some("https://www.soundhelix.com/examples/mp3/SoundHelix-Song-5.mp3"))
  ]

  /** `activeTrack` (null when nothing was chosen yet) and `isPlaying`. */
  datatype Selection = Selection(activeTrack: Option<string>, isPlaying: bool)

  const Initial := Selection(None, false)

  /** Clicking a row: the active row flips between playing and paused; any other row
      becomes active and starts playing. */
  function ToggleTrack(s: Selection, id: string): (r: Selection)
    ensures r.activeTrack == Some(id)
    ensures s.activeTrack == Some(id) ==> r.isPlaying == !s.isPlaying
    ensures s.activeTrack != Some(id) ==> r.isPlaying
  {
    if s.activeTrack == Some(id) then Selection(s.activeTrack, !s.isPlaying)
    else Selection(Some(id), true)
  }

  /** A row shows the Pause icon, rather than Play, exactly when it is active and playing. */
  predicate ShowsPause(s: Selection, id: string) {
    s.activeTrack == Some(id) && s.isPlaying
  }

  /** `tracks.find(t => t.id === id)`: the first track with that id, if any. */
  function Find(ts: seq<Track>, id: string): (r: Option<Track>)
    ensures r.Some? ==> r.value in ts && r.value.id == id
    ensures r.None? <==> forall t :: t in ts ==> t.id != id
    ensures r.Some? ==> exists k :: 0 <= k < |ts| && ts[k] == r.value &&
                          forall j :: 0 <= j < k ==> ts[j].id != id
  {
    if ts == [] then None
    else if ts[0].id == id then Some(ts[0])
    else
      var r := Find(ts[1..], id);
      assert forall t :: t in ts ==> t == ts[0] || t in ts[1..];
      if r.Some? then
        var k :| 0 <= k < |ts[1..]| && ts[1..][k] == r.value && forall j :: 0 <= j < k ==> ts[1..][j].id != id;
        assert ts[k + 1] == r.value && forall j :: 0 <= j < k + 1 ==> ts[j].id != id;
        r
      else r
  }

  /** The source the effect loads for a selection, or None when the effect returns early:
      no active track (null or the empty string, both falsy), an id not in the list,
      or a track whose `audioSrc` is missing or empty. */
  function SourceFor(s: Selection): (r: Option<string>)
    ensures r.Some? ==> Truthy(s.activeTrack) && Find(Tracks, s.activeTrack.value).Some? &&
                        Find(Tracks, s.activeTrack.value).value.audioSrc == r && r.value != ""
    ensures r.None? ==> !Truthy(s.activeTrack) || Find(Tracks, s.activeTrack.value).None? ||
                        !Truthy(Find(Tracks, s.activeTrack.value).value.audioSrc)
  {
    if !Truthy(s.activeTrack) then None
    else
      match Find(Tracks, s.activeTrack.value)
      case None => None
      case Some(t) => if Truthy(t.audioSrc) then t.audioSrc else None
  }

  /** The state of the audio element the ref points to. */
  datatype Audio = Audio(src: string, playing: bool)

  /** The calls made on the audio element, in order. */
  datatype AudioCall = Create(src: string) | Pause | SetSrc(src: string) | Load | Play

  /** The element after the effect has run, given the source it found (`SourceFor`)
      and the playing flag. */
  function Reconciled(source: Option<string>, playing: bool, current: Option<Audio>): (r: Option<Audio>)
    ensures source.None? ==> r == current
    ensures source.Some? ==> r == Some(Audio(source.value, playing))
  {
    match source
    case None => current
    case Some(src) => Some(Audio(src, playing))
  }

  /** The calls the effect makes: create the element if there is none, else pause,
      re-point and reload it if its source differs; then play or pause. */
  function ReconcileCalls(source: Option<string>, playing: bool, current: Option<Audio>): (calls: seq<AudioCall>)
    ensures source.None? ==> calls == []
    ensures source.Some? ==> |calls| >= 1 && calls[|calls| - 1] == (if playing then Play else Pause)
    ensures source.Some? ==> (Create(source.value) in calls <==> current.None?)
    ensures source.Some? ==>
              (SetSrc(source.value) in calls <==> current.Some? && current.value.src != source.value)
  {
    match source
    case None => []
    case Some(src) =>
      var attach :=
        if current.None? then [Create(src)]
        else if current.value.src != src then [Pause, SetSrc(src), Load]
        else [];
      attach + [if playing then Play else Pause]
  }

  /** The mutable ref `audioRef` and the element it holds. */
  class AudioRef {
    var current: Option<Audio>
    var calls: seq<AudioCall>

    constructor ()
      ensures current == None && calls == []
    {
      current := None;
      calls := [];
    }

    /** The effect keyed on `(activeTrack, isPlaying)`. */
    method Reconcile(s: Selection)
      modifies this
      ensures current == Reconciled(SourceFor(s), s.isPlaying, old(current))
      ensures calls == old(calls) + ReconcileCalls(SourceFor(s), s.isPlaying, old(current))
    {
      if !Truthy(s.activeTrack) {
        assert SourceFor(s) == None;
        return;
      }
      var track := Find(Tracks, s.activeTrack.value);
      if track.None? || !Truthy(track.value.audioSrc) {
        assert SourceFor(s) == None;
        return;
      }
      var src := track.value.audioSrc.value;
      assert SourceFor(s) == Some(src);
      // `audio` is the element `audioRef.current` refers to from here on;
      // `made` lists the calls made on it during this run
      var audio: Audio;
      var made: seq<AudioCall>;
      if current.None? {
        audio := Audio(src, false);
        made := [Create(src)];
      } else if current.value.src != src {
        audio := current.value.(playing := false);
        audio := audio.(src := src);
        made := [Pause, SetSrc(src), Load];
      } else {
        audio := current.value;
        made := [];
      }
      if s.isPlaying {
        audio := audio.(playing := true);
        made := made + [Play];
      } else {
        audio := audio.(playing := false);
        made := made + [Pause];
      }
      assert made == ReconcileCalls(Some(src), s.isPlaying, current);
      current := Some(audio);
      calls := calls + made;
    }

    /** The cleanup registered on mount: pause the element, if any, and drop the ref. */
    method Unmount()
      modifies this
      ensures current == None
      ensures calls == old(calls) + (if old(current).Some? then [Pause] else [])
    {
      if current.Some? {
        current := Some(current.value.(playing := false));
        calls := calls + [Pause];
        current := None;
      }
    }
  }

  /** Toggling a row leaves that row active, in either branch. */
  lemma ToggleActivates(s: Selection, id: string)
    ensures ToggleTrack(s, id).activeTrack == Some(id)
    ensures ShowsPause(ToggleTrack(s, id), id) <==> !ShowsPause(s, id)
  {
  }

  /** Toggling the active row twice restores the playing flag. */
  lemma ToggleTwiceRestores(s: Selection, id: string)
    requires s.activeTrack == Some(id)
    ensures ToggleTrack(ToggleTrack(s, id), id) == s
  {
  }

  /** At most one row shows the Pause icon. */
  lemma PauseIconUnique(s: Selection, a: string, b: string)
    requires ShowsPause(s, a) && ShowsPause(s, b)
    ensures a == b
  {
  }

  /** Every listed track has a source, so selecting any listed id gives the player that source. */
  lemma ListedTracksPlayable(k: nat, playing: bool)
    requires k < |Tracks|
    ensures SourceFor(Selection(Some(Tracks[k].id), playing)) == Tracks[k].audioSrc
  {
    TrackIdsDistinct();
    FindDistinct(Tracks, k);
    assert Truthy(Tracks[k].audioSrc) by { TracksHaveSources(); }
  }

  lemma TracksHaveSources()
    ensures forall k :: 0 <= k < |Tracks| ==> Truthy(Tracks[k].audioSrc)
  {
  }

  predicate DistinctTrackIds(ts: seq<Track>) {
    forall i, j :: 0 <= i < j < |ts| ==> ts[i].id != ts[j].id
  }

  lemma TrackIdsDistinct()
    ensures DistinctTrackIds(Tracks)
  {
  }

  /** In a list with distinct ids, looking up the id of position k finds position k. */
  lemma {:induction false} FindDistinct(ts: seq<Track>, k: nat)
    requires DistinctTrackIds(ts) && k < |ts|
    ensures Find(ts, ts[k].id) == Some(ts[k])
  {
    if k > 0 {
      assert ts[0].id != ts[k].id;
      assert ts[1..][k - 1] == ts[k];
      assert DistinctTrackIds(ts[1..]) by {
        forall i, j | 0 <= i < j < |ts[1..]| ensures ts[1..][i].id != ts[1..][j].id {
          assert ts[1..][i] == ts[i + 1] && ts[1..][j] == ts[j + 1];
        }
      }
      FindDistinct(ts[1..], k - 1);
    }
  }

  /** A source change is exactly pause, re-point, reload, then the play or pause call. */
  lemma SourceChangeOrder(src: string, playing: bool, a: Audio)
    requires a.src != src
    ensures ReconcileCalls(Some(src), playing, Some(a)) ==
              [Pause, SetSrc(src), Load, if playing then Play else Pause]
  {
  }

  /** Running the effect a second time with the same selection changes nothing more
      and makes only the final play or pause call again. */
  lemma ReconcileIdempotent(source: Option<string>, playing: bool, current: Option<Audio>)
    ensures Reconciled(source, playing, Reconciled(source, playing, current)) == Reconciled(source, playing, current)
    ensures source.Some? ==>
              ReconcileCalls(source, playing, Reconciled(source, playing, current)) == [if playing then Play else Pause]
  {
  }

  /** Clicking a listed row from any state leaves the element holding that row's source,
      playing exactly when the row now shows the Pause icon. */
  method ClickRow(ref: AudioRef, s: Selection, k: nat) returns (s': Selection)
    requires k < |Tracks|
    modifies ref
    ensures s' == ToggleTrack(s, Tracks[k].id)
    ensures ref.current == Some(Audio(Tracks[k].audioSrc.value, ShowsPause(s', Tracks[k].id)))
    ensures ref.calls == old(ref.calls) + ReconcileCalls(SourceFor(s'), s'.isPlaying, old(ref.current))
  {
    s' := ToggleTrack(s, Tracks[k].id);
    ListedTracksPlayable(k, s'.isPlaying);
    ref.Reconcile(s');
  }
}
