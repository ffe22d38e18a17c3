/**
 * The built-in ambient track library and its lookup by id
 * (src/lib/libraryTracks.ts).
 */
module LibraryTracks {
  import opened Wrappers

  /** A library entry; `title` is the source's `label` (a reserved word in Dafny). */
  datatype Track = Track(id: string, title: string, src: string)

  /** The shipped list; the entries commented out in the source are absent. */
  const LIBRARY_TRACKS: seq<Track> := [
    Track("rain", "Rain", "/audio/rain.mp3"),
    Track("cafe", "Cafe", "/audio/cafe.mp3"),
    Track("jazz", "Jazz", "/audio/jazz.mp3"),
    Track("lofi", "Lo-Fi Beats", "/audio/lofi.mp3")
  ]

  const DEFAULT_LIBRARY_TRACK_ID: string := "rain"

  /** True when some track of `tracks` carries `id`. */
  ghost predicate HasId(tracks: seq<Track>, id: string) {
    exists i :: 0 <= i < |tracks| && tracks[i].id == id
  }

  /**
   * `Array.prototype.find` with the predicate `t.id === id`: the first
   * track, in list order, whose id is `id`.
   */
  function FindById(tracks: seq<Track>, id: string): (r: Option<nat>)
    ensures r.Some? ==> r.value < |tracks| && tracks[r.value].id == id
    ensures r.Some? ==> forall j :: 0 <= j < r.value ==> tracks[j].id != id
    ensures r.None? ==> forall j :: 0 <= j < |tracks| ==> tracks[j].id != id
  {
    if tracks == [] then None
    else if tracks[0].id == id then Some(0)
    else match FindById(tracks[1..], id)
      case None => None
      case Some(k) => Some(k + 1)
  }

  /**
   * `getTrackById`: the first library track with the given id, if any. A
   * found track carries the requested id and belongs to the library; the
   * result is empty exactly when no library track has the id.
   */
  function GetTrackById(id: string): (r: Option<Track>)
    ensures r.Some? ==> r.value.id == id && r.value in LIBRARY_TRACKS
    ensures r.None? <==> !HasId(LIBRARY_TRACKS, id)
  {
    match FindById(LIBRARY_TRACKS, id)
    case None => None
    case Some(k) => Some(LIBRARY_TRACKS[k])
  }

  /** The lookup returns the first match in list order. */
  lemma GetTrackByIdFirst(id: string, j: nat)
    requires j < |LIBRARY_TRACKS| && LIBRARY_TRACKS[j].id == id
    requires forall i :: 0 <= i < j ==> LIBRARY_TRACKS[i].id != id
    ensures GetTrackById(id) == Some(LIBRARY_TRACKS[j])
  {
  }

  /** The default track id resolves to the "rain" track. */
  lemma DefaultTrackExists()
    ensures GetTrackById(DEFAULT_LIBRARY_TRACK_ID) == Some(LIBRARY_TRACKS[0])
  {
  }

  /** Tracks that are commented out of the list are not found. */
  lemma CommentedOutTracksAbsent()
    ensures GetTrackById("forest").None?
    ensures GetTrackById("ocean").None?
  {
  }
}
