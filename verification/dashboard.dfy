/**
 * The dashboard's two audio actions: the upload handler, which only hands a file to the
 * provider when its MIME type or its name says it is audio, and the microphone button,
 * whose loading flag is raised for the length of the request.
 */
module Dashboard {
  import opened Wrappers
  import opened Text
  import opened Audio

  /** The two properties of a picked file the handler looks at. */
  datatype AudioFile = AudioFile(name: string, mimeType: string)

  const ValidTypes: seq<string> := ["audio/mp3", "audio/mpeg", "audio/wav", "audio/ogg", "audio/webm"]

  /** `s` ends with `suffix`: it splits into some head followed by the suffix. */
  predicate EndsWith(s: string, suffix: string)
    ensures EndsWith(s, suffix) ==> |suffix| <= |s| && s == s[..|s| - |suffix|] + suffix
    ensures |suffix| <= |s| && !EndsWith(s, suffix) ==> exists i :: |s| - |suffix| <= i < |s| && s[i] != suffix[i - (|s| - |suffix|)]
  {
    |suffix| <= |s| && s[|s| - |suffix|..] == suffix
  }

  /** Lower-casing a name keeps a suffix that has no capital letters. */
  lemma LowerCaseKeepsLowerSuffix(name: string, suffix: string)
    requires forall i :: 0 <= i < |suffix| ==> !('A' <= suffix[i] <= 'Z')
    ensures EndsWith(name, suffix) ==> EndsWith(LowerCase(name), suffix)
  {
    if EndsWith(name, suffix) {
      var lower := LowerCase(name);
      var d := |name| - |suffix|;
      forall i | 0 <= i < |suffix|
        ensures lower[d..][i] == suffix[i]
      {
        assert name[d + i] == suffix[i];
      }
    }
  }

  /** The name matches `/\.(mp3|wav|ogg|webm)$/i`: it ends with one of the four extensions, in any case. */
  predicate HasAudioExtension(name: string)
    ensures HasAudioExtension(name) ==> |name| >= 4
    ensures EndsWith(name, ".mp3") || EndsWith(name, ".wav") || EndsWith(name, ".ogg") || EndsWith(name, ".webm") ==> HasAudioExtension(name)
  {
    LowerCaseKeepsLowerSuffix(name, ".mp3");
    LowerCaseKeepsLowerSuffix(name, ".wav");
    LowerCaseKeepsLowerSuffix(name, ".ogg");
    LowerCaseKeepsLowerSuffix(name, ".webm");
    var lower := LowerCase(name);
    EndsWith(lower, ".mp3") || EndsWith(lower, ".wav") || EndsWith(lower, ".ogg") || EndsWith(lower, ".webm")
  }

  /** A file is taken when its MIME type is listed or, failing that, its name has an audio extension. */
  predicate Accepted(f: AudioFile)
    ensures f.mimeType in ValidTypes ==> Accepted(f)
    ensures Accepted(f) ==> f.mimeType in ValidTypes || |f.name| >= 4
  {
    f.mimeType in ValidTypes || HasAudioExtension(f.name)
  }

  /** Upper-casing a name does not change whether it has an audio extension. */
  lemma ExtensionIgnoresCase(name: string)
    ensures HasAudioExtension(UpperCase(name)) == HasAudioExtension(name)
  {
    forall i | 0 <= i < |name|
      ensures LowerCase(UpperCase(name))[i] == LowerCase(name)[i]
    {
      LowerOfUpper(name[i]);
    }
    assert LowerCase(UpperCase(name)) == LowerCase(name);
  }

  /** The extension must end the name: `a.mp3.txt` with a MIME type that is not listed is turned away. */
  lemma ExtensionMustBeSuffix()
    ensures !Accepted(AudioFile("a.mp3.txt", "text/plain"))
  {
    var lower := LowerCase("a.mp3.txt");
    assert lower == "a.mp3.txt";
    assert lower[|lower| - 4..] == ".txt";
    assert lower[|lower| - 5..] == "3.txt";
    assert "text/plain" != ValidTypes[0] && "text/plain" != ValidTypes[1] && "text/plain" != ValidTypes[2];
    assert "text/plain" != ValidTypes[3] && "text/plain" != ValidTypes[4];
  }

  /** An upper-case extension is enough, whatever the MIME type says. */
  lemma UpperCaseExtensionAccepted()
    ensures Accepted(AudioFile("SONG.MP3", "application/octet-stream"))
  {
    var lower := LowerCase("SONG.MP3");
    assert lower == "song.mp3";
    assert EndsWith(lower, ".mp3") by {
      assert lower[|lower| - 4..] == ".mp3";
    }
    assert HasAudioExtension("SONG.MP3");
  }

  /** A listed MIME type is enough, whatever the name. */
  lemma ListedTypeAccepted(name: string)
    ensures Accepted(AudioFile(name, "audio/mpeg"))
  {
    assert ValidTypes[1] == "audio/mpeg";
  }

  datatype UploadOutcome = NoFile | Rejected | Loaded

  /** What the handler does with the picked file, if any. */
  function Classify(file: Option<AudioFile>): (o: UploadOutcome)
    ensures o == NoFile <==> file.None?
    ensures o == Loaded <==> file.Some? && Accepted(file.value)
  {
    if file.None? then NoFile else if Accepted(file.value) then Loaded else Rejected
  }

  /**
   * `handleFileUpload`: no file does nothing, a rejected file is refused before the
   * provider is touched, and an accepted one is loaded.
   */
  method HandleFileUpload(provider: AudioProvider, file: Option<AudioFile>) returns (outcome: UploadOutcome)
    requires provider.Valid()
    modifies provider
    ensures provider.Valid() && outcome == Classify(file)
    ensures outcome == Loaded ==> provider.State() == AfterLoadFile(old(provider.State()))
    ensures outcome != Loaded ==> unchanged(provider)
  {
    if file.None? {
      return NoFile;
    }
    if !Accepted(file.value) {
      return Rejected;
    }
    provider.LoadAudioFile();
    outcome := Loaded;
  }

  /** The page's own state: whether the microphone request is in flight. */
  class DashboardPage {
    var isLoadingMic: bool

    constructor ()
      ensures !isLoadingMic
    {
      isLoadingMic := false;
    }

    /**
     * `handleMicrophoneStart`, with the permission outcome as `granted`. `during` is the
     * flag while the request runs: raised, then lowered again whether the request
     * succeeded or failed.
     */
    method HandleMicrophoneStart(provider: AudioProvider, granted: bool) returns (during: bool, ok: bool)
      requires provider.Valid()
      modifies this, provider
      ensures during && !isLoadingMic && ok == granted
      ensures provider.Valid() && provider.State() == AfterMicrophone(old(provider.State()), granted)
    {
      isLoadingMic := true;
      during := isLoadingMic;
      ok := provider.StartMicrophone(granted);
      isLoadingMic := false;
    }
  }
}
