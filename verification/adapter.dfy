/** The Adapter demo: a media player that picks an adapter from the
    filename's extension, and three adapters that translate `play` into the
    native call of an incompatible legacy player. */
module Adapter {
  import opened JavaLang
  import opened Strings

  // The adaptees' native operations, each returning the one line it prints.

  function PlayVlc(filename: string): string {
    "Playing VLC file: " + filename
  }

  function PlayMp4(filename: string): string {
    "Playing MP4 file: " + filename
  }

  function PlayAudio(filename: string, volume: Int32): string {
    "Playing audio file: " + filename + " at volume: " + IntToString(volume)
  }

  /** The implementations of the `MediaPlayer` interface. */
  datatype MediaPlayer =
    | VlcAdapter
    | Mp4Adapter
    | LegacyAudioAdapter(defaultVolume: Int32)
    | AudioPlayer

  /** The volume `AudioPlayer` hands to the legacy audio adapter. */
  const DispatchVolume: Int32 := 75

  function Unsupported(filename: string): string {
    "Unsupported format: " + filename
  }

  /** The adapter `AudioPlayer.play` constructs for a filename, or `Null`
      when the extension is not recognised. Extensions are tried in a fixed
      order: ".vlc", then ".mp4", then ".wav" or ".mp3". */
  function SelectAdapter(filename: string): (r: Nullable<MediaPlayer>)
    ensures r.Ref? ==> r.value != AudioPlayer
    ensures r.Null? <==>
      !EndsWith(filename, ".vlc") && !EndsWith(filename, ".mp4")
      && !EndsWith(filename, ".wav") && !EndsWith(filename, ".mp3")
  {
    if EndsWith(filename, ".vlc") then Ref(VlcAdapter)
    else if EndsWith(filename, ".mp4") then Ref(Mp4Adapter)
    else if EndsWith(filename, ".wav") || EndsWith(filename, ".mp3") then Ref(LegacyAudioAdapter(DispatchVolume))
    else Null
  }

  /** `MediaPlayer.play`: the lines one call prints. Every call prints
      exactly one line. An adapter used directly never looks at the
      extension. */
  function Play(player: MediaPlayer, filename: string): (lines: seq<string>)
    ensures |lines| == 1
    ensures player == VlcAdapter ==> lines[0] == PlayVlc(filename)
    ensures player == Mp4Adapter ==> lines[0] == PlayMp4(filename)
    ensures player.LegacyAudioAdapter? ==> lines[0] == PlayAudio(filename, player.defaultVolume)
    ensures player == AudioPlayer && SelectAdapter(filename).Null? ==> lines[0] == Unsupported(filename)
    decreases player == AudioPlayer
  {
    match player
    case VlcAdapter => [PlayVlc(filename)]
    case Mp4Adapter => [PlayMp4(filename)]
    case LegacyAudioAdapter(volume) => [PlayAudio(filename, volume)]
    case AudioPlayer =>
      match SelectAdapter(filename)
      case Null => [Unsupported(filename)]
      case Ref(adapter) => Play(adapter, filename)
  }

  /** When `AudioPlayer` finds an adapter, it prints exactly what that
      adapter prints for the unchanged filename. */
  lemma DispatchDelegates(filename: string)
    requires SelectAdapter(filename).Ref?
    ensures Play(AudioPlayer, filename) == Play(SelectAdapter(filename).value, filename)
  {
  }

  /** Any filename ending in ".vlc" plays through the VLC adapter. */
  lemma PlayVlcFile(stem: string)
    ensures Play(AudioPlayer, stem + ".vlc") == [PlayVlc(stem + ".vlc")]
  {
    EndsWithAppended(stem, ".vlc");
  }

  /** Any filename ending in ".mp4" plays through the MP4 adapter: such a
      name cannot also end in ".vlc", so the first test never shadows it. */
  lemma PlayMp4File(stem: string)
    ensures Play(AudioPlayer, stem + ".mp4") == [PlayMp4(stem + ".mp4")]
  {
    var f := stem + ".mp4";
    EndsWithAppended(stem, ".mp4");
    if EndsWith(f, ".vlc") {
      EndsWithSameLength(f, ".vlc", ".mp4");
      assert false;
    }
  }

  /** Any filename ending in ".wav" or ".mp3" plays through the legacy audio
      adapter at volume 75. */
  lemma PlayAudioFile(stem: string, extension: string)
    requires extension == ".wav" || extension == ".mp3"
    ensures Play(AudioPlayer, stem + extension) == [PlayAudio(stem + extension, 75)]
  {
    var f := stem + extension;
    EndsWithAppended(stem, extension);
    if EndsWith(f, ".vlc") {
      EndsWithSameLength(f, ".vlc", extension);
      assert false;
    }
    if EndsWith(f, ".mp4") {
      EndsWithSameLength(f, ".mp4", extension);
      assert false;
    }
  }

  /** The printed line tells which branch ran: it reads "Unsupported
      format: " + filename exactly when no recognised extension matched,
      and in that case no adapter was constructed. */
  lemma UnsupportedIffNoExtension(filename: string)
    ensures Play(AudioPlayer, filename) == [Unsupported(filename)] <==>
      !EndsWith(filename, ".vlc") && !EndsWith(filename, ".mp4")
      && !EndsWith(filename, ".wav") && !EndsWith(filename, ".mp3")
  {
    var line := Play(AudioPlayer, filename)[0];
    if SelectAdapter(filename).Ref? {
      // Every adapter's line starts with "Playing", the diagnostic with "Unsupported".
      assert line[0] == 'P';
      assert Unsupported(filename)[0] == 'U';
    }
  }

  /** Every line names the filename unmodified, right after a fixed
      prefix that depends only on the branch taken. */
  lemma FilenamePassedThrough(player: MediaPlayer, filename: string)
    ensures exists prefix :: prefix in Prefixes && prefix + filename <= Play(player, filename)[0]
  {
    var line := Play(player, filename)[0];
    var prefix :=
      if line == PlayVlc(filename) then "Playing VLC file: "
      else if line == PlayMp4(filename) then "Playing MP4 file: "
      else if line == Unsupported(filename) then "Unsupported format: "
      else "Playing audio file: ";
    if player == AudioPlayer && SelectAdapter(filename).Ref? {
      DispatchDelegates(filename);
    }
    assert prefix in Prefixes;
    assert prefix + filename <= line;
  }

  /** The fixed texts that precede the filename in the printed lines. */
  const Prefixes: set<string> :=
    {"Playing VLC file: ", "Playing MP4 file: ", "Playing audio file: ", "Unsupported format: "}

  /** Matching is case-sensitive and the empty name matches nothing. */
  lemma CaseSensitiveMatching()
    ensures Play(AudioPlayer, "song.MP3") == [Unsupported("song.MP3")]
    ensures Play(AudioPlayer, "") == [Unsupported("")]
  {
    assert "song.MP3"[4..] != ".mp3";
  }

  /** The demo's calls through the dispatcher, one per branch. */
  lemma DemoVlcFile()
    ensures Play(AudioPlayer, "movie.vlc") == ["Playing VLC file: movie.vlc"]
  {
    PlayVlcFile("movie");
    assert "movie" + ".vlc" == "movie.vlc";
    assert PlayVlc("movie.vlc") == "Playing VLC file: movie.vlc";
  }

  lemma DemoMp4File()
    ensures Play(AudioPlayer, "video.mp4") == ["Playing MP4 file: video.mp4"]
  {
    PlayMp4File("video");
    assert "video" + ".mp4" == "video.mp4";
    assert PlayMp4("video.mp4") == "Playing MP4 file: video.mp4";
  }

  lemma VolumeText()
    ensures IntToString(DispatchVolume) == "75"
  {
    assert NatToString(7) == "7";
  }

  lemma DemoMp3File()
    ensures Play(AudioPlayer, "song.mp3") == ["Playing audio file: song.mp3 at volume: 75"]
  {
    VolumeText();
    PlayAudioFile("song", ".mp3");
    assert "song" + ".mp3" == "song.mp3";
    assert PlayAudio("song.mp3", 75) == "Playing audio file: song.mp3 at volume: 75";
  }

  lemma DemoWavFile()
    ensures Play(AudioPlayer, "sound.wav") == ["Playing audio file: sound.wav at volume: 75"]
  {
    VolumeText();
    PlayAudioFile("sound", ".wav");
    assert "sound" + ".wav" == "sound.wav";
    assert PlayAudio("sound.wav", 75) == "Playing audio file: sound.wav at volume: 75";
  }

  lemma DemoUnsupportedFile()
    ensures Play(AudioPlayer, "document.pdf") == ["Unsupported format: document.pdf"]
  {
    assert "document.pdf"[8..] == ".pdf";
    assert Unsupported("document.pdf") == "Unsupported format: document.pdf";
  }

  /** The demo's adapters used directly, bypassing the dispatcher. */
  lemma DemoDirectAdapters()
    ensures Play(VlcAdapter, "another_movie.vlc") == ["Playing VLC file: another_movie.vlc"]
    ensures Play(Mp4Adapter, "another_video.mp4") == ["Playing MP4 file: another_video.mp4"]
  {
    assert PlayVlc("another_movie.vlc") == "Playing VLC file: another_movie.vlc";
    assert PlayMp4("another_video.mp4") == "Playing MP4 file: another_video.mp4";
  }
}
