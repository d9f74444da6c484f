/**
 * The audio provider: one shared analyser fed by at most one source (a decoded file
 * or the microphone), its lazily created buffers, the playback status it publishes,
 * and the un-normalised band getters.
 *
 * Browser objects are abstracted: the audio element is its `src`-set and `paused`
 * flags, the media stream is whether its tracks are live, and each source node is
 * an identity plus its kind, so that "connected to the analyser" is a list of nodes.
 */
module Audio {
  import opened Wrappers
  import opened Spectrum

  datatype SourceKind = FileSource | MicrophoneSource

  /** The audio element kept in `audioElementRef`. */
  datatype Player = Player(hasSrc: bool, paused: bool)

  /** The media stream kept in `mediaStreamRef`: whether its tracks still capture. */
  datatype Stream = Stream(tracksLive: bool)

  /** A source node: the graph node made from the element or the stream. */
  datatype SourceNode = SourceNode(id: nat, kind: SourceKind)

  /** Disconnecting `node` removes every connection it has into the analyser. */
  function Disconnect(inputs: seq<SourceNode>, node: SourceNode): (r: seq<SourceNode>)
    ensures node !in r
    ensures forall x :: x in r <==> x in inputs && x != node
    ensures |r| <= |inputs|
  {
    if inputs == [] then []
    else (if inputs[0] == node then [] else [inputs[0]]) + Disconnect(inputs[1..], node)
  }

  /** The part of the provider that the source operations change. */
  datatype SourceState = SourceState(
    isPlaying: bool,
    audioSource: Option<SourceKind>,
    audioElement: Option<Player>,
    mediaStream: Option<Stream>,
    sourceNode: Option<SourceNode>,
    analyserInputs: seq<SourceNode>,
    analyserToSpeakers: bool,
    nextNodeId: nat)
  {
    /** Only the node held in `sourceNodeRef` may feed the analyser, so at most one source does. */
    predicate SingleInput()
    {
      |analyserInputs| <= 1 && (analyserInputs != [] ==> sourceNode == Some(analyserInputs[0]))
    }

    /**
     * No leaked resource: live stream tracks only while the microphone node is the
     * analyser's input, a playing element only while the file node is.
     */
    predicate NoLeak()
    {
      && (mediaStream.Some? && mediaStream.value.tracksLive ==>
            sourceNode.Some? && sourceNode.value.kind == MicrophoneSource && analyserInputs == [sourceNode.value])
      && (audioElement.Some? && !audioElement.value.paused ==>
            sourceNode.Some? && sourceNode.value.kind == FileSource && analyserInputs == [sourceNode.value])
    }

    /** Node identities handed out so far are below `nextNodeId`. */
    predicate FreshIds()
    {
      && (sourceNode.Some? ==> sourceNode.value.id < nextNodeId)
      && (forall n :: n in analyserInputs ==> n.id < nextNodeId)
    }

    predicate Valid() { SingleInput() && NoLeak() && FreshIds() }
  }

  /** The provider before anything was loaded. */
  const InitialSources := SourceState(false, None, None, None, None, [], false, 0)

  /**
   * "Stop any existing audio", as both loaders and `stopAudio` begin: pause the element
   * (clearing its `src` when `clearSrc`), stop the stream's tracks and disconnect the
   * current source node. Afterwards nothing feeds the analyser.
   */
  function StopPrevious(s: SourceState, clearSrc: bool): (t: SourceState)
    ensures s.Valid() ==> t.Valid() && t.analyserInputs == []
    ensures t.isPlaying == s.isPlaying && t.audioSource == s.audioSource && t.sourceNode == s.sourceNode
    ensures t.audioElement.Some? <==> s.audioElement.Some?
    ensures t.audioElement.Some? ==> t.audioElement.value.paused
    ensures t.mediaStream.Some? <==> s.mediaStream.Some?
    ensures t.mediaStream.Some? ==> !t.mediaStream.value.tracksLive
  {
    s.(audioElement := if s.audioElement.Some? then Some(Player(!clearSrc && s.audioElement.value.hasSrc, true)) else None,
       mediaStream := if s.mediaStream.Some? then Some(Stream(false)) else None,
       analyserInputs := if s.sourceNode.Some? then Disconnect(s.analyserInputs, s.sourceNode.value) else s.analyserInputs)
  }

  /**
   * The second half of `loadAudioFile`, once the previous source is stopped: a new
   * element with the file as `src`, a fresh node for it connected to the analyser and
   * the analyser to the speakers, then playback starts.
   */
  function ConnectFile(s: SourceState): (t: SourceState)
    ensures s.Valid() && s.analyserInputs == [] ==> t.Valid()
    ensures t.analyserInputs == s.analyserInputs + [SourceNode(s.nextNodeId, FileSource)]
    ensures t.isPlaying && t.audioSource == Some(FileSource)
    ensures t.audioElement == Some(Player(true, false)) && t.mediaStream == s.mediaStream
    ensures t.analyserToSpeakers
  {
    var node := SourceNode(s.nextNodeId, FileSource);
    s.(audioElement := Some(Player(true, false)),
       sourceNode := Some(node),
       analyserInputs := s.analyserInputs + [node],
       analyserToSpeakers := true,
       nextNodeId := s.nextNodeId + 1,
       isPlaying := true,
       audioSource := Some(FileSource))
  }

  /**
   * `loadAudioFile`: tear the previous source down, then connect a fresh node for a new
   * playing element. The file node is the analyser's only input afterwards.
   */
  function AfterLoadFile(s: SourceState): (t: SourceState)
    ensures s.Valid() ==> t.Valid()
    ensures s.Valid() ==> t.analyserInputs == [SourceNode(s.nextNodeId, FileSource)]
    ensures t.isPlaying && t.audioSource == Some(FileSource)
    ensures t.audioElement == Some(Player(true, false))
    ensures t.mediaStream.Some? <==> s.mediaStream.Some?
    ensures t.mediaStream.Some? ==> !t.mediaStream.value.tracksLive
    ensures t.analyserToSpeakers
  {
    ConnectFile(StopPrevious(s, true))
  }

  /**
   * The second half of a granted `startMicrophone`: a live stream, and a fresh node for
   * it connected to the analyser (which is not routed to the speakers).
   */
  function ConnectMicrophone(s: SourceState): (t: SourceState)
    ensures s.Valid() && s.analyserInputs == [] ==> t.Valid()
    ensures t.analyserInputs == s.analyserInputs + [SourceNode(s.nextNodeId, MicrophoneSource)]
    ensures t.isPlaying && t.audioSource == Some(MicrophoneSource) && t.mediaStream == Some(Stream(true))
    ensures t.audioElement == s.audioElement && t.analyserToSpeakers == s.analyserToSpeakers
  {
    var node := SourceNode(s.nextNodeId, MicrophoneSource);
    s.(mediaStream := Some(Stream(true)),
       sourceNode := Some(node),
       analyserInputs := s.analyserInputs + [node],
       nextNodeId := s.nextNodeId + 1,
       isPlaying := true,
       audioSource := Some(MicrophoneSource))
  }

  /**
   * `startMicrophone`, with the outcome of the permission request as `granted`. The old
   * source is torn down before the request; on refusal the error is rethrown and the
   * published `isPlaying` and `audioSource` keep their previous values.
   */
  function AfterMicrophone(s: SourceState, granted: bool): (t: SourceState)
    ensures s.Valid() ==> t.Valid()
    ensures granted ==> t.isPlaying && t.audioSource == Some(MicrophoneSource) && t.mediaStream == Some(Stream(true))
    ensures granted && s.Valid() ==> t.analyserInputs == [SourceNode(s.nextNodeId, MicrophoneSource)]
    ensures !granted ==> t.isPlaying == s.isPlaying && t.audioSource == s.audioSource && t.sourceNode == s.sourceNode
    ensures !granted && s.Valid() ==> t.analyserInputs == []
    ensures t.analyserToSpeakers == s.analyserToSpeakers
  {
    var stopped := StopPrevious(s, false);
    if !granted then stopped else ConnectMicrophone(stopped)
  }

  /** `stopAudio`: release everything and publish "not playing, no source". */
  function AfterStop(s: SourceState): (t: SourceState)
    ensures s.Valid() ==> t.Valid() && t.analyserInputs == []
    ensures !t.isPlaying && t.audioSource.None? && t.mediaStream.None? && t.sourceNode.None?
    ensures t.audioElement.Some? <==> s.audioElement.Some?
    ensures t.audioElement.Some? ==> t.audioElement.value == Player(false, true)
  {
    StopPrevious(s, true).(mediaStream := None, sourceNode := None, isPlaying := false, audioSource := None)
  }

  /** The element's `onended` handler: only `isPlaying` changes. */
  function AfterPlaybackEnded(s: SourceState): (t: SourceState)
    ensures s.Valid() ==> t.Valid()
    ensures !t.isPlaying && t == s.(isPlaying := false)
  {
    s.(isPlaying := false)
  }

  /** Stopping twice leaves the same state as stopping once. */
  lemma StopIdempotent(s: SourceState)
    requires s.Valid()
    ensures AfterStop(AfterStop(s)) == AfterStop(s)
  {
  }

  /**
   * A refused microphone request leaves the published status describing a source that
   * no longer feeds the analyser: a playing file stays "playing" with no input.
   */
  lemma RefusedMicrophoneKeepsStaleStatus(s: SourceState)
    requires s.Valid() && s.isPlaying && s.audioSource == Some(FileSource)
    ensures var t := AfterMicrophone(s, false);
      t.isPlaying && t.audioSource == Some(FileSource) && t.analyserInputs == []
  {
  }

  /** Whatever sequence of operations runs, the analyser never has two inputs. */
  lemma {:induction false} AtMostOneSourceAlways(s: SourceState, ops: seq<SourceOp>)
    requires s.Valid()
    ensures Run(s, ops).Valid() && |Run(s, ops).analyserInputs| <= 1
    decreases |ops|
  {
    if ops != [] {
      var next := Apply(s, ops[0]);
      assert next.Valid();
      AtMostOneSourceAlways(next, ops[1..]);
    }
  }

  /** The provider's source operations, for reasoning about sequences of them. */
  datatype SourceOp = LoadFile | StartMicrophone(granted: bool) | Stop | PlaybackEnded

  function Apply(s: SourceState, op: SourceOp): (r: SourceState)
  {
    match op
    case LoadFile => AfterLoadFile(s)
    case StartMicrophone(granted) => AfterMicrophone(s, granted)
    case Stop => AfterStop(s)
    case PlaybackEnded => AfterPlaybackEnded(s)
  }

  function Run(s: SourceState, ops: seq<SourceOp>): (r: SourceState)
    decreases |ops|
  {
    if ops == [] then s else Run(Apply(s, ops[0]), ops[1..])
  }

  /** A byte buffer as `new Uint8Array(n)` creates it. */
  function Silence(n: nat): (s: seq<int>)
    ensures |s| == n && AllBytes(s)
    ensures forall i :: 0 <= i < n ==> s[i] == 0
  {
    seq(n, _ => 0)
  }

  /** The browser audio context (opaque). */
  class AudioGraph {
    constructor ()
    {
    }
  }

  /** The analyser node; its buffers have `fftSize / 2` bins. */
  class AnalyserNode {
    const fftSize: nat
    const smoothingTimeConstant: real

    constructor (fftSize: nat, smoothingTimeConstant: real)
      ensures this.fftSize == fftSize && this.smoothingTimeConstant == smoothingTimeConstant
    {
      this.fftSize := fftSize;
      this.smoothingTimeConstant := smoothingTimeConstant;
    }

    function FrequencyBinCount(): nat
    {
      fftSize / 2
    }
  }

  class AudioProvider {
    var audioContext: AudioGraph?
    var analyser: AnalyserNode?
    var dataArray: Option<seq<int>>
    var frequencyData: Option<seq<int>>

    var isPlaying: bool
    var audioSource: Option<SourceKind>
    var audioElement: Option<Player>
    var mediaStream: Option<Stream>
    var sourceNode: Option<SourceNode>
    var analyserInputs: seq<SourceNode>
    var analyserToSpeakers: bool
    var nextNodeId: nat

    function State(): SourceState
      reads this
    {
      SourceState(isPlaying, audioSource, audioElement, mediaStream, sourceNode, analyserInputs, analyserToSpeakers, nextNodeId)
    }

    ghost predicate Valid()
      reads this
    {
      && State().Valid()
      && (audioContext == null <==> analyser == null)
      && (analyser == null <==> dataArray.None?)
      && (analyser == null <==> frequencyData.None?)
      && (analyser != null ==> analyser.fftSize == FftSize)
      && (dataArray.Some? ==> IsFrame(dataArray.value))
      && (frequencyData.Some? ==> IsFrame(frequencyData.value))
      && (analyserInputs != [] ==> analyser != null)
    }

    constructor ()
      ensures Valid() && audioContext == null && State() == InitialSources
    {
      audioContext, analyser := null, null;
      dataArray, frequencyData := None, None;
      isPlaying, audioSource := false, None;
      audioElement, mediaStream, sourceNode := None, None, None;
      analyserInputs, analyserToSpeakers, nextNodeId := [], false, 0;
    }

    /**
     * `initAudio`: create the context, a 2048-point analyser and two zeroed buffers of
     * 1024 bins the first time; afterwards hand back the existing pair untouched.
     */
    method InitAudio() returns (ctx: AudioGraph, node: AnalyserNode)
      requires Valid()
      modifies this
      ensures Valid() && State() == old(State())
      ensures audioContext == ctx && analyser == node
      ensures node.fftSize == FftSize && node.FrequencyBinCount() == BinCount
      ensures old(audioContext) != null ==>
        ctx == old(audioContext) && node == old(analyser)
        && dataArray == old(dataArray) && frequencyData == old(frequencyData)
      ensures old(audioContext) == null ==>
        fresh(ctx) && fresh(node) && node.smoothingTimeConstant == 0.8
        && dataArray == Some(Silence(BinCount)) && frequencyData == Some(Silence(BinCount))
    {
      if audioContext == null {
        ctx := new AudioGraph();
        node := new AnalyserNode(FftSize, 0.8);
        audioContext, analyser := ctx, node;
        dataArray := Some(Silence(node.FrequencyBinCount()));
        frequencyData := Some(Silence(node.FrequencyBinCount()));
      } else {
        ctx, node := audioContext, analyser;
      }
    }

    /** Pause the element (clearing its `src` if asked), stop stream tracks, disconnect the node. */
    method StopExisting(clearSrc: bool)
      requires Valid()
      modifies this
      ensures State() == StopPrevious(old(State()), clearSrc) && Valid()
      ensures audioContext == old(audioContext) && analyser == old(analyser)
      ensures dataArray == old(dataArray) && frequencyData == old(frequencyData)
    {
      if audioElement.Some? {
        audioElement := Some(Player(!clearSrc && audioElement.value.hasSrc, true));
      }
      if mediaStream.Some? {
        mediaStream := Some(Stream(false));
      }
      if sourceNode.Some? {
        analyserInputs := Disconnect(analyserInputs, sourceNode.value);
      }
    }

    /** `loadAudioFile`: the previous source is released before the file's node is connected. */
    method LoadAudioFile()
      requires Valid()
      modifies this
      ensures Valid() && State() == AfterLoadFile(old(State()))
      ensures analyser != null && (old(analyser) != null ==> analyser == old(analyser))
    {
      var ctx, analyserNode := InitAudio();
      StopExisting(true);
      PlayFile();
    }

    /** A new element for the file, its node connected to the analyser and the speakers, playing. */
    method PlayFile()
      requires Valid() && analyser != null && analyserInputs == []
      modifies this
      ensures Valid() && State() == ConnectFile(old(State()))
      ensures analyser == old(analyser)
    {
      var node := SourceNode(nextNodeId, FileSource);
      audioElement, sourceNode, nextNodeId := Some(Player(true, false)), Some(node), nextNodeId + 1;
      analyserInputs, analyserToSpeakers := analyserInputs + [node], true;
      isPlaying, audioSource := true, Some(FileSource);
      assert State() == ConnectFile(old(State()));
    }

    /** `startMicrophone`; `granted` is the outcome of the permission request, `ok` is false when it rethrows. */
    method StartMicrophone(granted: bool) returns (ok: bool)
      requires Valid()
      modifies this
      ensures ok == granted
      ensures Valid() && State() == AfterMicrophone(old(State()), granted)
      ensures analyser != null && (old(analyser) != null ==> analyser == old(analyser))
    {
      var ctx, analyserNode := InitAudio();
      StopExisting(false);
      if !granted {
        return false;
      }
      CaptureMicrophone();
      ok := true;
    }

    /** A live stream, its node connected to the analyser. */
    method CaptureMicrophone()
      requires Valid() && analyser != null && analyserInputs == []
      modifies this
      ensures Valid() && State() == ConnectMicrophone(old(State()))
      ensures analyser == old(analyser)
    {
      var node := SourceNode(nextNodeId, MicrophoneSource);
      mediaStream, sourceNode, nextNodeId := Some(Stream(true)), Some(node), nextNodeId + 1;
      analyserInputs := analyserInputs + [node];
      isPlaying, audioSource := true, Some(MicrophoneSource);
      assert State() == ConnectMicrophone(old(State()));
    }

    /** `stopAudio`. */
    method StopAudio()
      requires Valid()
      modifies this
      ensures Valid() && State() == AfterStop(old(State()))
      ensures audioContext == old(audioContext) && analyser == old(analyser)
    {
      StopExisting(true);
      mediaStream := None;
      sourceNode := None;
      isPlaying := false;
      audioSource := None;
    }

    /** The element's `onended` handler. */
    method OnEnded()
      requires Valid()
      modifies this
      ensures Valid() && State() == AfterPlaybackEnded(old(State()))
      ensures audioContext == old(audioContext) && analyser == old(analyser)
    {
      isPlaying := false;
    }
  }

  /*
   * The band getters. `frame` is the frequency buffer after the analyser refreshed it,
   * or `None` when the provider has no analyser or buffer yet.
   */

  /** `getAverageFrequency`: 0 without an analyser, otherwise the mean of every bin. */
  function AverageFrequency(frame: Option<seq<int>>): (r: real)
    requires frame.Some? ==> IsFrame(frame.value)
    ensures frame.None? ==> r == 0.0
    ensures 0.0 <= r <= 255.0
  {
    if frame.None? then 0.0 else Mean(frame.value)
  }

  /** `getBassFrequency`: mean of bins [0, 10), not divided by 255. */
  function BassFrequency(frame: Option<seq<int>>): (r: real)
    requires frame.Some? ==> IsFrame(frame.value)
    ensures frame.None? ==> r == 0.0
    ensures 0.0 <= r <= 255.0
  {
    if frame.None? then 0.0 else Mean(frame.value[0..10])
  }

  /** `getMidFrequency`: mean of bins [10, 100). */
  function MidFrequency(frame: Option<seq<int>>): (r: real)
    requires frame.Some? ==> IsFrame(frame.value)
    ensures frame.None? ==> r == 0.0
    ensures 0.0 <= r <= 255.0
  {
    if frame.None? then 0.0 else Mean(frame.value[10..100])
  }

  /** `getHighFrequency`: mean of bins [100, 256). */
  function HighFrequency(frame: Option<seq<int>>): (r: real)
    requires frame.Some? ==> IsFrame(frame.value)
    ensures frame.None? ==> r == 0.0
    ensures 0.0 <= r <= 255.0
  {
    if frame.None? then 0.0 else Mean(frame.value[100..256])
  }

  /**
   * The provider's bass getter is the engines' normalised bass level (bins [0, 10)
   * divided by 10 and by 255) scaled back up by 255.
   */
  lemma ProviderBassIsUnnormalisedBand(frame: seq<int>)
    requires IsFrame(frame)
    ensures BassFrequency(Some(frame)) == 255.0 * BandLevel(frame, 0, 10, 10)
  {
    assert Slice(frame, 0, 10) == frame[0..10];
  }

  /** A frame whose bins [0, 10) are all 255 gives the full-scale bass reading. */
  lemma FullScaleBass(frame: seq<int>)
    requires IsFrame(frame)
    requires forall i :: 0 <= i < 10 ==> frame[i] == 255
    ensures BassFrequency(Some(frame)) == 255.0
  {
    SumConstant(frame[0..10], 255);
  }
}
