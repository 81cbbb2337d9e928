/// The JSON records the Waybar module prints:
/// crates/waybar-bard/src/waybar/render.rs. The record type is declared in
/// crates/waybar-bard/src/models.rs, which is not part of this model; its
/// four fields are the ones the renderer fills in (`class` is spelled
/// `className` here because `class` is a Dafny keyword). Serialising to
/// JSON and printing are left out.
module WaybarRender {
  import opened Models

  datatype WaybarOutput = WaybarOutput(text: string, alt: string, tooltip: string, className: string)

  /// `render_no_song`: nothing shown, class `no-song`.
  function RenderNoSong(): (r: WaybarOutput)
    ensures r.text == [] && r.alt == [] && r.tooltip == [] && r.className == "no-song"
  {
    WaybarOutput("", "", "", "no-song")
  }

  /// `render_just`: an ellipsis with class `has-song`.
  function RenderJust(): (r: WaybarOutput)
    ensures r.text == "..." && r.alt == [] && r.tooltip == [] && r.className == "has-song"
  {
    WaybarOutput("...", "", "", "has-song")
  }

  /// `render_empty`: nothing shown, class `hidden`.
  function RenderEmpty(): (r: WaybarOutput)
    ensures r.text == [] && r.alt == [] && r.tooltip == [] && r.className == "hidden"
  {
    WaybarOutput("", "", "", "hidden")
  }

  /// `render_song_info`: "artist - title" as both text and tooltip.
  function RenderSongInfo(song: SongInfo): (r: WaybarOutput)
    ensures r.text == r.tooltip == song.artist + " - " + song.title
    ensures r.alt == [] && r.className == "has-song"
  {
    var parsedText := song.artist + " - " + song.title;
    WaybarOutput(parsedText, "", parsedText, "has-song")
  }

  /// `get_lyrics_output`: the current line with the next one as `alt`, or an
  /// ellipsis and no `alt` while the current line is empty.
  function GetLyricsOutput(current: string, next: string, tooltip: string): (r: WaybarOutput)
    ensures r.tooltip == tooltip && r.className == "has-lyrics"
    ensures current == [] ==> r.text == "..." && r.alt == []
    ensures current != [] ==> r.text == current && r.alt == next
    ensures r.text != []
  {
    if current == [] then WaybarOutput("...", "", tooltip, "has-lyrics")
    else WaybarOutput(current, next, tooltip, "has-lyrics")
  }

  /// A lyrics record gives back what it was built from: once the current
  /// line is non-empty, equal records come from equal lines and tooltips.
  lemma {:induction false} LyricsOutputInjective(c1: string, n1: string, t1: string, c2: string, n2: string, t2: string)
    requires c1 != [] && c2 != []
    requires GetLyricsOutput(c1, n1, t1) == GetLyricsOutput(c2, n2, t2)
    ensures c1 == c2 && n1 == n2 && t1 == t2
  {
  }

  /// The record class tells the five kinds of output apart except the two
  /// `has-song` ones, which always differ in their text; only the hidden and
  /// no-song records leave the bar blank.
  lemma {:induction false} OutputKinds(song: SongInfo, current: string, next: string, tooltip: string)
    ensures RenderEmpty().className != RenderNoSong().className
    ensures GetLyricsOutput(current, next, tooltip).className !in
      {RenderEmpty().className, RenderNoSong().className, RenderSongInfo(song).className}
    ensures RenderSongInfo(song).text != RenderJust().text
    ensures RenderSongInfo(song).text != [] && GetLyricsOutput(current, next, tooltip).text != []
  {
    assert RenderSongInfo(song).text[|song.artist|] == ' ';
  }
}
